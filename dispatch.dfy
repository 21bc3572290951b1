/** The inbound side of the line-based clients: each socket delivery is cut
    into lines, every non-empty line is decoded and routed by its `type` to
    a named event. The handlers of the map-based and the Set-based client
    are the same code and are modelled once, here. */
module Dispatch {
  import opened Results
  import opened Json
  import opened Framing

  /** One `emit(name, ...)` call: the event name and what listeners receive. */
  datatype Event =
    | Close(message: JsValue)
    | Info(message: JsValue)
    | Settings(values: JsValue)
    | NotificationClicked(message: JsValue)
    | ListChange(message: JsValue)
    | Action(message: JsValue, held: JsValue)   // held: null, false (up) or true (down)
    | Broadcast(message: JsValue)
    | ConnectorShortIdNotification(message: JsValue)
    | ConnectorChange(message: JsValue)
    | Message(message: JsValue)

  /** What makes the handler throw: `JSON.parse` rejecting a line, or
      reading `type` of a line that decoded to `null`. The exception
      leaves the `data` listener, so the rest of the delivery is not
      handled. */
  datatype InboundError = SyntaxError(line: string) | PropertyOfNull

  /** How handling a delivery ends: normally, by `process.exit(code)` after
      an addressed `closePlugin`, or by an exception. */
  datatype Ending = Completed | Exited(code: int) | Threw(error: InboundError)

  datatype Delivery = Delivery(events: seq<Event>, ending: Ending)

  /** `message.key` once `message` is known not to be null or undefined. */
  function Field(message: JsValue, key: string): JsValue {
    if message.Obj? then Get(message.members, key) else Undefined
  }

  /** The `type` values the `switch` has a case for. */
  predicate IsKnownType(t: JsValue) {
    t.Str? && t.s in {"closePlugin", "info", "notificationOptionClicked", "settings", "listChange",
                      "action", "broadcast", "shortConnectorIdNotification", "connectorChange", "up", "down"}
  }

  /** A `closePlugin` message addressed to this plugin. */
  predicate AddressedClose(pluginId: string, message: JsValue) {
    Field(message, "type") == Str("closePlugin") && Field(message, "pluginId") == Str(pluginId)
  }

  /** The `switch (message.type)` of the handler, for one decoded line. */
  function Route(pluginId: string, message: JsValue): Delivery
  {
    match Prop(message, "type")
    case None => Delivery([], Threw(PropertyOfNull))
    case Some(t) =>
      if t == Str("closePlugin") then
        if Field(message, "pluginId") == Str(pluginId) then Delivery([Close(message)], Exited(0))
        else Delivery([], Completed)
      else if t == Str("info") then
        var settings := Field(message, "settings");
        Delivery([Info(message)] + (if Truthy(settings) then [Settings(settings)] else []), Completed)
      else if t == Str("notificationOptionClicked") then Delivery([NotificationClicked(message)], Completed)
      else if t == Str("settings") then Delivery([Settings(Field(message, "values"))], Completed)
      else if t == Str("listChange") then Delivery([ListChange(message)], Completed)
      else if t == Str("action") then Delivery([Action(message, Null)], Completed)
      else if t == Str("broadcast") then Delivery([Broadcast(message)], Completed)
      else if t == Str("shortConnectorIdNotification") then Delivery([ConnectorShortIdNotification(message)], Completed)
      else if t == Str("connectorChange") then Delivery([ConnectorChange(message)], Completed)
      else if t == Str("up") then Delivery([Action(message, Bool(false))], Completed)
      else if t == Str("down") then Delivery([Action(message, Bool(true))], Completed)
      else Delivery([Message(message)], Completed)
  }

  /** Reading `type` of null or undefined throws, before any event; every
      other message is routed without throwing. */
  lemma RouteThrowsOnlyOnNullish(pluginId: string, message: JsValue)
    ensures Route(pluginId, message).ending.Threw? <==> message.Null? || message.Undefined?
    ensures Route(pluginId, message).ending.Threw? ==> Route(pluginId, message).events == []
  {
  }

  /** Close is emitted, and the process exits with 0, exactly for a
      closePlugin addressed to this plugin. */
  lemma RouteExitsOnlyOnAddressedClose(pluginId: string, message: JsValue)
    ensures Route(pluginId, message).ending.Exited? <==> AddressedClose(pluginId, message)
    ensures Route(pluginId, message).ending.Exited? ==>
      Route(pluginId, message).ending.code == 0 && Route(pluginId, message).events == [Close(message)]
    ensures Close(message) in Route(pluginId, message).events <==> AddressedClose(pluginId, message)
  {
  }

  /** Every event but Settings hands listeners the decoded message itself,
      and one message emits at most two events. */
  lemma RouteHandsOnMessage(pluginId: string, message: JsValue)
    ensures forall e :: e in Route(pluginId, message).events && !e.Settings? ==> e.message == message
    ensures |Route(pluginId, message).events| <= 2
  {
  }

  /** The generic Message event is the fallback for exactly the types
      without a case. */
  lemma RouteFallsBackOnUnknownType(pluginId: string, message: JsValue)
    ensures Message(message) in Route(pluginId, message).events <==>
      !message.Null? && !message.Undefined? && !IsKnownType(Field(message, "type"))
  {
  }

  /** An info message is handed on as Info, followed by Settings with its
      `settings` member when that member is truthy; a settings message
      hands on its `values` member (possibly undefined). */
  lemma SettingsSources(pluginId: string, message: JsValue)
    requires message.Obj?
    ensures Field(message, "type") == Str("info") ==>
      Route(pluginId, message).events ==
        [Info(message)] + (if Truthy(Field(message, "settings")) then [Settings(Field(message, "settings"))] else [])
    ensures Field(message, "type") == Str("settings") ==>
      Route(pluginId, message).events == [Settings(Field(message, "values"))]
  {
  }

  /** No type other than `info` and `settings` emits Settings. */
  lemma SettingsOnlyFromInfoAndSettings(pluginId: string, message: JsValue)
    ensures (exists v :: Settings(v) in Route(pluginId, message).events) ==>
      Field(message, "type") in {Str("info"), Str("settings")}
  {
  }

  /** `action`, `up` and `down` each emit one Action, with held state
      null, false and true. */
  lemma HeldState(pluginId: string, message: JsValue)
    ensures Field(message, "type") == Str("action") ==>
      Route(pluginId, message) == Delivery([Action(message, Null)], Completed)
    ensures Field(message, "type") == Str("up") ==>
      Route(pluginId, message) == Delivery([Action(message, Bool(false))], Completed)
    ensures Field(message, "type") == Str("down") ==>
      Route(pluginId, message) == Delivery([Action(message, Bool(true))], Completed)
  {
  }

  /** No type other than `action`, `up` and `down` emits Action. */
  lemma ActionOnlyForHeldTypes(pluginId: string, message: JsValue)
    ensures (exists held :: Action(message, held) in Route(pluginId, message).events) ==>
      Field(message, "type") in {Str("action"), Str("up"), Str("down")}
  {
  }

  /** The five types handed on unchanged, each as its own single event. */
  lemma PassThroughTypes(pluginId: string, message: JsValue)
    ensures Field(message, "type") == Str("notificationOptionClicked") ==>
      Route(pluginId, message) == Delivery([NotificationClicked(message)], Completed)
    ensures Field(message, "type") == Str("listChange") ==>
      Route(pluginId, message) == Delivery([ListChange(message)], Completed)
    ensures Field(message, "type") == Str("broadcast") ==>
      Route(pluginId, message) == Delivery([Broadcast(message)], Completed)
    ensures Field(message, "type") == Str("shortConnectorIdNotification") ==>
      Route(pluginId, message) == Delivery([ConnectorShortIdNotification(message)], Completed)
    ensures Field(message, "type") == Str("connectorChange") ==>
      Route(pluginId, message) == Delivery([ConnectorChange(message)], Completed)
  {
  }

  /** A `closePlugin` for another plugin is ignored, and a message of a type
      without a case is handed on as Message and nothing else. */
  lemma IgnoredAndUnknownTypes(pluginId: string, message: JsValue)
    ensures Field(message, "type") == Str("closePlugin") && !AddressedClose(pluginId, message) ==>
      Route(pluginId, message) == Delivery([], Completed)
    ensures !message.Null? && !message.Undefined? && !IsKnownType(Field(message, "type")) ==>
      Route(pluginId, message) == Delivery([Message(message)], Completed)
  {
  }

  /** `d` followed by `rest`: `rest` happens only if `d` completed, and its
      events come after those of `d`. */
  function Then(d: Delivery, rest: Delivery): Delivery {
    if d.ending.Completed? then Delivery(d.events + rest.events, rest.ending) else d
  }

  /** Composing deliveries one after the other does not depend on grouping. */
  lemma ThenAssociative(d1: Delivery, d2: Delivery, d3: Delivery)
    ensures Then(Then(d1, d2), d3) == Then(d1, Then(d2, d3))
  {
    if d1.ending.Completed? && d2.ending.Completed? {
      assert (d1.events + d2.events) + d3.events == d1.events + (d2.events + d3.events);
    }
  }

  /** One iteration of the `lines.forEach`: an empty line is skipped, any
      other is decoded and routed; `parse` is `JSON.parse`, with `None` for
      a line it rejects. */
  function HandleLine(pluginId: string, line: string, parse: string -> Option<JsValue>): Delivery {
    if line == "" then Delivery([], Completed)
    else
      match parse(line)
      case None => Delivery([], Threw(SyntaxError(line)))
      case Some(m) => Route(pluginId, m)
  }

  /** The `lines.forEach` of the handler: a line is handled only while the
      earlier ones completed. */
  function HandleLines(pluginId: string, lines: seq<string>, parse: string -> Option<JsValue>): Delivery
    decreases |lines|
  {
    if lines == [] then Delivery([], Completed)
    else Then(HandleLine(pluginId, lines[0], parse), HandleLines(pluginId, lines[1..], parse))
  }

  /** The `socket.on('data', ...)` handler for one delivery. Each delivery
      is split on its own: nothing is carried over to the next one. */
  function HandleData(pluginId: string, data: string, parse: string -> Option<JsValue>): Delivery {
    HandleLines(pluginId, SplitLines(data), parse)
  }

  /** Reference behaviour: route already decoded messages one after the
      other, stopping at the first one that exits or throws. */
  function RouteAll(pluginId: string, ms: seq<JsValue>): Delivery
    decreases |ms|
  {
    if ms == [] then Delivery([], Completed)
    else Then(Route(pluginId, ms[0]), RouteAll(pluginId, ms[1..]))
  }

  /** Handling lines one after the other: the second part is handled only
      if the first completes, and its events follow the first part's. */
  lemma {:induction false} HandleLinesAppend(pluginId: string, a: seq<string>, b: seq<string>, parse: string -> Option<JsValue>)
    ensures HandleLines(pluginId, a + b, parse) ==
      Then(HandleLines(pluginId, a, parse), HandleLines(pluginId, b, parse))
    decreases |a|
  {
    if a == [] {
      assert a + b == b;
    } else {
      var ab := a + b;
      assert ab[0] == a[0] && ab[1..] == a[1..] + b;
      HandleLinesAppend(pluginId, a[1..], b, parse);
      ThenAssociative(HandleLine(pluginId, a[0], parse), HandleLines(pluginId, a[1..], parse), HandleLines(pluginId, b, parse));
    }
  }

  /** Empty lines make no difference: handling a delivery is handling its
      non-empty lines. */
  lemma {:induction false} EmptyLinesDropped(pluginId: string, lines: seq<string>, parse: string -> Option<JsValue>)
    ensures HandleLines(pluginId, lines, parse) == HandleLines(pluginId, NonEmpty(lines), parse)
    decreases |lines|
  {
    if lines != [] {
      EmptyLinesDropped(pluginId, lines[1..], parse);
    }
  }

  /** A line `JSON.parse` rejects ends the delivery with the exception:
      the lines before it are dispatched, none after it is. */
  lemma MalformedLineEndsDelivery(pluginId: string, before: seq<string>, line: string, after: seq<string>,
                                  parse: string -> Option<JsValue>)
    requires line != "" && parse(line).None?
    requires HandleLines(pluginId, before, parse).ending.Completed?
    ensures HandleLines(pluginId, before + [line] + after, parse) ==
      Delivery(HandleLines(pluginId, before, parse).events, Threw(SyntaxError(line)))
  {
    HandleLinesAppend(pluginId, before, [line] + after, parse);
    assert before + [line] + after == before + ([line] + after);
    assert HandleLines(pluginId, [line] + after, parse) == Delivery([], Threw(SyntaxError(line)));
  }

  /** An addressed closePlugin ends the delivery: Close is the last event
      and the lines after it are never handled. */
  lemma AddressedCloseEndsDelivery(pluginId: string, before: seq<string>, line: string, after: seq<string>,
                                   parse: string -> Option<JsValue>)
    requires line != "" && parse(line).Some? && AddressedClose(pluginId, parse(line).value)
    requires HandleLines(pluginId, before, parse).ending.Completed?
    ensures HandleLines(pluginId, before + [line] + after, parse) ==
      Delivery(HandleLines(pluginId, before, parse).events + [Close(parse(line).value)], Exited(0))
  {
    HandleLinesAppend(pluginId, before, [line] + after, parse);
    assert before + [line] + after == before + ([line] + after);
  }

  lemma {:induction false} HandleRenders(pluginId: string, ms: seq<JsValue>, parse: string -> Option<JsValue>)
    requires forall i :: 0 <= i < |ms| ==> parse(Render(ms[i])) == Some(ms[i])
    ensures HandleLines(pluginId, Renders(ms) + [""], parse) == RouteAll(pluginId, ms)
    decreases |ms|
  {
    if ms != [] {
      var lines := Renders(ms) + [""];
      assert lines[0] == Render(ms[0]) && lines[1..] == Renders(ms[1..]) + [""];
      HandleRenders(pluginId, ms[1..], parse);
    }
  }

  /** A batch written with `sendArray` and handed over as one delivery is
      dispatched message by message, in the order of the batch, provided
      `JSON.parse` reads each encoding back as its message. */
  lemma DeliveredBatchRoutesInOrder(pluginId: string, ms: seq<JsValue>, parse: string -> Option<JsValue>)
    requires forall i :: 0 <= i < |ms| ==> parse(Render(ms[i])) == Some(ms[i])
    ensures HandleData(pluginId, Batch(ms), parse) == RouteAll(pluginId, ms)
  {
    SplitBatch(ms);
    HandleRenders(pluginId, ms, parse);
  }
}
