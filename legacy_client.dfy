/** The legacy client (src/client.js): a reduced outbound API whose
    duplicate test reads a registry that nothing ever writes, and an inbound
    handler that decodes each socket delivery as one JSON text. */
module LegacyClient {
  import opened Results
  import opened Json
  import opened Messages
  import Framing
  import Dispatch
  import IndexClient

  /** The createState message: no `parentGroup`. */
  function CreateStateMessage(id: string, desc: string, defaultValue: string): JsValue {
    Obj(CreateStateBase(id, desc, defaultValue))
  }

  /** The `type` values the legacy `switch` has a case for. */
  predicate IsKnownType(t: JsValue) {
    t.Str? && t.s in {"closePlugin", "info", "listChange", "action"}
  }

  /** The `switch (message.type)` of the legacy handler. An addressed
      `closePlugin` exits with code 9; `info` emits Info only; `action`
      hands listeners no held state; every other type is a Message. */
  function Route(pluginId: string, message: JsValue): (d: Dispatch.Delivery)
    ensures d.ending.Threw? <==> message.Null? || message.Undefined?
    ensures d.ending.Threw? ==> d.events == []
    ensures d.ending.Exited? <==> Dispatch.AddressedClose(pluginId, message)
    ensures d.ending.Exited? ==> d.ending.code == 9 && d.events == [Dispatch.Close(message)]
    ensures forall e :: e in d.events ==> !e.Settings? && e.message == message
    ensures forall e :: e in d.events ==> e.Close? || e.Info? || e.ListChange? || e.Action? || e.Message?
    ensures Dispatch.Message(message) in d.events <==>
      !message.Null? && !message.Undefined? && !IsKnownType(Dispatch.Field(message, "type"))
    ensures |d.events| <= 1
    // the three other cases, each a single event and no exit
    ensures Dispatch.Field(message, "type") == Str("info") ==>
      d == Dispatch.Delivery([Dispatch.Info(message)], Dispatch.Completed)
    ensures Dispatch.Field(message, "type") == Str("listChange") ==>
      d == Dispatch.Delivery([Dispatch.ListChange(message)], Dispatch.Completed)
    ensures Dispatch.Field(message, "type") == Str("action") ==>
      d == Dispatch.Delivery([Dispatch.Action(message, Undefined)], Dispatch.Completed)
    // a closePlugin for another plugin is ignored
    ensures Dispatch.Field(message, "type") == Str("closePlugin") && !Dispatch.AddressedClose(pluginId, message) ==>
      d == Dispatch.Delivery([], Dispatch.Completed)
  {
    match Prop(message, "type")
    case None => Dispatch.Delivery([], Dispatch.Threw(Dispatch.PropertyOfNull))
    case Some(t) =>
      if t == Str("closePlugin") then
        if Dispatch.Field(message, "pluginId") == Str(pluginId) then
          Dispatch.Delivery([Dispatch.Close(message)], Dispatch.Exited(9))
        else
          Dispatch.Delivery([], Dispatch.Completed)
      else if t == Str("info") then Dispatch.Delivery([Dispatch.Info(message)], Dispatch.Completed)
      else if t == Str("listChange") then Dispatch.Delivery([Dispatch.ListChange(message)], Dispatch.Completed)
      else if t == Str("action") then Dispatch.Delivery([Dispatch.Action(message, Undefined)], Dispatch.Completed)
      else Dispatch.Delivery([Dispatch.Message(message)], Dispatch.Completed)
  }

  /** The legacy `data` handler: the whole delivery is one `JSON.parse`
      call, so it yields at most one event, and a delivery that is not a
      single JSON text throws before any event. */
  function HandleData(pluginId: string, data: string, parse: string -> Option<JsValue>): (d: Dispatch.Delivery)
    ensures parse(data).None? <==> d == Dispatch.Delivery([], Dispatch.Threw(Dispatch.SyntaxError(data)))
    ensures parse(data).Some? ==> d == Route(pluginId, parse(data).value)
    ensures |d.events| <= 1
  {
    match parse(data)
    case None => Dispatch.Delivery([], Dispatch.Threw(Dispatch.SyntaxError(data)))
    case Some(m) => Route(pluginId, m)
  }

  /** Where the legacy handler and the line-based one differ for a single
      message: the exit code, the Settings event that follows Info, the
      held state of Action, and the types the legacy `switch` does not know;
      for every other message they behave the same. */
  lemma RouteAgainstLineBased(pluginId: string, message: JsValue)
    ensures var legacy := Route(pluginId, message);
      var current := Dispatch.Route(pluginId, message);
      var t := Dispatch.Field(message, "type");
      && (legacy.ending.Exited? <==> current.ending.Exited?)
      && (legacy.ending.Exited? ==> legacy.events == current.events)
      && (legacy.ending.Threw? <==> current.ending.Threw?)
      && (t == Str("info") ==> legacy.events == current.events[..1])
      && (t == Str("action") ==> legacy.events == [Dispatch.Action(message, Undefined)] &&
                                 current.events == [Dispatch.Action(message, Null)])
      && (!Dispatch.IsKnownType(t) ==> legacy == current)
      && (t == Str("closePlugin") || t == Str("listChange") ==> legacy.events == current.events)
      && (Dispatch.IsKnownType(t) && !IsKnownType(t) && Dispatch.Route(pluginId, message).ending.Completed? ==>
            legacy.events == [Dispatch.Message(message)])
  {
  }

  class TouchPortalClient {
    var pluginId: string
    /** Declared and read by `createState`, never written. */
    var customStates: map<string, string>
    /** Every `socket.write`, one element per call. */
    var writes: seq<string>

    constructor ()
      ensures pluginId == "" && customStates == map[] && writes == []
    {
      pluginId := "";
      customStates := map[];
      writes := [];
    }

    /** The part of `connect` that the model keeps: the plugin id is set. */
    method Connect(id: string)
      modifies this`pluginId
      ensures pluginId == id
    {
      pluginId := id;
    }

    method Send(data: JsValue)
      modifies this`writes
      ensures writes == old(writes) + [Framing.Frame(data)]
    {
      writes := writes + [Render(data) + "\n"];
    }

    method SendArray(dataArray: seq<JsValue>) returns (r: Outcome)
      modifies this`writes
      ensures dataArray == [] ==> r == Fail(EmptyBatch) && writes == old(writes)
      ensures dataArray != [] ==> r == Pass && writes == old(writes) + [Framing.Batch(dataArray)]
    {
      if |dataArray| <= 0 {
        return Fail(EmptyBatch);
      }
      var dataStr := Framing.BuildPayload(dataArray);
      writes := writes + [dataStr];
      r := Pass;
    }

    /** The duplicate test reads `customStates`, but the state is never
      recorded there, so with the registry as the constructor leaves it the
      same id can be created any number of times. */
    method CreateState(id: string, desc: string, defaultValue: string) returns (r: Outcome)
      modifies this`writes
      ensures IndexClient.Created(customStates, id) ==> r == Fail(DuplicateState(id)) && writes == old(writes)
      ensures !IndexClient.Created(customStates, id) ==>
        r == Pass && writes == old(writes) + [Framing.Frame(CreateStateMessage(id, desc, defaultValue))]
      ensures customStates == map[] ==> r == Pass
    {
      if IndexClient.Created(customStates, id) {
        return Fail(DuplicateState(id));
      }
      Send(CreateStateMessage(id, desc, defaultValue));
      r := Pass;
    }

    method ChoiceUpdate(id: string, value: seq<string>) returns (r: Outcome)
      modifies this`writes
      ensures value == [] ==> r == Fail(ChoiceValueEmpty) && writes == old(writes)
      ensures value != [] ==> r == Pass && writes == old(writes) + [Framing.Frame(ChoiceUpdateMessage(id, value))]
    {
      if |value| <= 0 {
        return Fail(ChoiceValueEmpty);
      }
      Send(ChoiceUpdateMessage(id, value));
      r := Pass;
    }

    /** `instanceId` is `None` when the caller leaves it out. */
    method ChoiceUpdateSpecific(id: string, value: seq<string>, instanceId: Option<string>) returns (r: Outcome)
      modifies this`writes
      ensures value == [] ==> r == Fail(ChoiceSpecificValueEmpty) && writes == old(writes)
      ensures value != [] && !Populated(instanceId) ==> r == Fail(InstanceIdMissing) && writes == old(writes)
      ensures value != [] && Populated(instanceId) ==>
        r == Pass && writes == old(writes) + [Framing.Frame(ChoiceUpdateSpecificMessage(id, value, instanceId.value))]
    {
      if |value| <= 0 {
        return Fail(ChoiceSpecificValueEmpty);
      }
      if instanceId.None? || instanceId.value == "" {
        return Fail(InstanceIdMissing);
      }
      Send(ChoiceUpdateSpecificMessage(id, value, instanceId.value));
      r := Pass;
    }

    method StateUpdate(id: string, value: string)
      modifies this`writes
      ensures writes == old(writes) + [Framing.Frame(StateUpdateMessage(id, value))]
    {
      Send(StateUpdateMessage(id, value));
    }

    method StateUpdateMany(states: seq<Shapes.StateUpdate>) returns (r: Outcome)
      modifies this`writes
      ensures states == [] ==> r == Fail(StateUpdateManyEmpty) && writes == old(writes)
      ensures states != [] ==> r == Pass && writes == old(writes) + [Framing.Batch(StateUpdateMessages(states))]
    {
      if |states| <= 0 {
        return Fail(StateUpdateManyEmpty);
      }
      var stateArray: seq<JsValue> := [];
      var i := 0;
      while i < |states|
        invariant 0 <= i <= |states|
        invariant stateArray == StateUpdateMessages(states[..i])
      {
        assert StateUpdateMessages(states[..i + 1]) == stateArray + [StateUpdateMessage(states[i].id, states[i].value)];
        stateArray := stateArray + [StateUpdateMessage(states[i].id, states[i].value)];
        i := i + 1;
      }
      assert states[..i] == states;
      r := SendArray(stateArray);
    }

    method Pair()
      modifies this`writes
      ensures writes == old(writes) + [Framing.Frame(PairMessage(pluginId))]
    {
      Send(PairMessage(pluginId));
    }
  }
}
