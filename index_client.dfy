/** The primary client class (src/index.ts): a registry of the custom
    states this client created, held in a plain object from state id to
    description, and the outbound operations, each of which makes at most
    one socket write. */
module IndexClient {
  import opened Results
  import opened Json
  import opened Shapes
  import opened Messages
  import Framing
  import Connectors
  import Numbers

  /** The plugin id `connect` uses when it is given no options. */
  const DEFAULT_PLUGIN_ID := "UNK"

  /** `if (this.customStates[id])`: the duplicate test looks at the stored
      description's truthiness, so a state created with description `''`
      is not seen as created. */
  predicate Created(customStates: map<string, string>, id: string) {
    id in customStates && customStates[id] != ""
  }

  /** The createState message. The source's
      `(parentGroup !== '' || parentGroup !== undefined) ? parentGroup : undefined`
      is true for every value, so `parentGroup` is passed on as given: an
      empty string is sent, an absent one is left out by `JSON.stringify`. */
  function CreateStateMessage(id: string, desc: string, defaultValue: string, parentGroup: Option<string>): JsValue {
    Obj(CreateStateBase(id, desc, defaultValue) +
        [Member("parentGroup", if parentGroup.Some? then Str(parentGroup.value) else Undefined)])
  }

  /** The message carries `parentGroup` exactly as given, the empty string
      included; an absent one reads as undefined (and is not written). */
  lemma CreateStateGroup(id: string, desc: string, defaultValue: string, parentGroup: Option<string>)
    ensures Get(CreateStateMessage(id, desc, defaultValue, parentGroup).members, "parentGroup") ==
      if parentGroup.Some? then Str(parentGroup.value) else Undefined
  {
  }

  function CreateStateMessages(states: seq<StateSpec>): (r: seq<JsValue>)
    ensures |r| == |states|
    ensures forall i :: 0 <= i < |states| ==>
      r[i] == CreateStateMessage(states[i].id, states[i].desc, states[i].defaultValue, states[i].parentGroup)
    decreases |states|
  {
    if states == [] then []
    else [CreateStateMessage(states[0].id, states[0].desc, states[0].defaultValue, states[0].parentGroup)]
         + CreateStateMessages(states[1..])
  }

  lemma CreateStateMessagesSnoc(states: seq<StateSpec>, s: StateSpec)
    ensures CreateStateMessages(states + [s]) ==
      CreateStateMessages(states) + [CreateStateMessage(s.id, s.desc, s.defaultValue, s.parentGroup)]
  {
  }

  /** What `createStateMany` does to the registry and which entries it sends. */
  datatype CreatePlan = CreatePlan(registry: map<string, string>, accepted: seq<StateSpec>)

  /** The `states.forEach` of `createStateMany`: an entry the duplicate test
      sees as created is skipped (with a warning), any other is registered
      and queued, in the order given. */
  function PlanCreateMany(registry: map<string, string>, states: seq<StateSpec>): CreatePlan
    decreases |states|
  {
    if states == [] then CreatePlan(registry, [])
    else
      var s := states[0];
      if Created(registry, s.id) then PlanCreateMany(registry, states[1..])
      else
        var rest := PlanCreateMany(registry[s.id := s.desc], states[1..]);
        CreatePlan(rest.registry, [s] + rest.accepted)
  }

  /** The ids the duplicate test sees as created. */
  function CreatedIds(registry: map<string, string>): set<string> {
    set k | k in registry && registry[k] != ""
  }

  /** After `createStateMany` the registry holds the old ids and every id of
      the batch, and no entry the duplicate test saw is overwritten. */
  lemma {:induction false} PlanRegistry(registry: map<string, string>, states: seq<StateSpec>)
    ensures PlanCreateMany(registry, states).registry.Keys == registry.Keys + Ids(states)
    ensures forall k :: Created(registry, k) ==> PlanCreateMany(registry, states).registry[k] == registry[k]
    decreases |states|
  {
    if states != [] {
      var s := states[0];
      if Created(registry, s.id) {
        PlanRegistry(registry, states[1..]);
      } else {
        PlanRegistry(registry[s.id := s.desc], states[1..]);
      }
    }
  }

  /** The batch keeps the input order: it is the input with the skipped
      entries left out. */
  lemma {:induction false} PlanKeepsOrder(registry: map<string, string>, states: seq<StateSpec>)
    ensures IsSubsequence(PlanCreateMany(registry, states).accepted, states)
    decreases |states|
  {
    if states != [] {
      var s := states[0];
      if Created(registry, s.id) {
        PlanKeepsOrder(registry, states[1..]);
      } else {
        PlanKeepsOrder(registry[s.id := s.desc], states[1..]);
        var rest := PlanCreateMany(registry[s.id := s.desc], states[1..]).accepted;
        assert ([s] + rest)[1..] == rest;
      }
    }
  }

  /** With non-empty descriptions, the case the duplicate test is written
      for: the ids sent are those of the batch not already created. */
  lemma {:induction false} PlanSentIds(registry: map<string, string>, states: seq<StateSpec>)
    requires forall i :: 0 <= i < |states| ==> states[i].desc != ""
    ensures Ids(PlanCreateMany(registry, states).accepted) == Ids(states) - CreatedIds(registry)
    decreases |states|
  {
    if states != [] {
      var s := states[0];
      if Created(registry, s.id) {
        PlanSentIds(registry, states[1..]);
      } else {
        var registry' := registry[s.id := s.desc];
        assert CreatedIds(registry') == CreatedIds(registry) + {s.id};
        PlanSentIds(registry', states[1..]);
      }
    }
  }

  /** ... and each of them is sent once: an id repeated in the batch, or
      already created, is not sent again. */
  lemma {:induction false} PlanSendsEachIdOnce(registry: map<string, string>, states: seq<StateSpec>)
    requires forall i :: 0 <= i < |states| ==> states[i].desc != ""
    ensures DistinctIds(PlanCreateMany(registry, states).accepted)
    decreases |states|
  {
    if states != [] {
      var s := states[0];
      if Created(registry, s.id) {
        PlanSendsEachIdOnce(registry, states[1..]);
      } else {
        var registry' := registry[s.id := s.desc];
        assert s.id in CreatedIds(registry');
        PlanSendsEachIdOnce(registry', states[1..]);
        PlanSentIds(registry', states[1..]);
        var rest := PlanCreateMany(registry', states[1..]).accepted;
        IdsMembers(rest);
        var acc := [s] + rest;
        forall i, j | 0 <= i < j < |acc| ensures acc[i].id != acc[j].id {
          assert acc[j] == rest[j - 1];
          if i > 0 {
            assert acc[i] == rest[i - 1];
          }
        }
      }
    }
  }

  /** With non-empty descriptions, which entries are sent: the first entry
      of each id not already created, in input order; a later entry with
      the same id reads as created and is skipped. */
  lemma {:induction false} PlanFirstOccurrences(registry: map<string, string>, states: seq<StateSpec>)
    requires forall i :: 0 <= i < |states| ==> states[i].desc != ""
    ensures PlanCreateMany(registry, states).accepted == FirstNew(CreatedIds(registry), states)
    decreases |states|
  {
    if states != [] {
      var s := states[0];
      var registry' := if Created(registry, s.id) then registry else registry[s.id := s.desc];
      assert CreatedIds(registry') == CreatedIds(registry) + {s.id};
      PlanFirstOccurrences(registry', states[1..]);
      FirstNewCons(CreatedIds(registry), states);
    }
  }

  /** ... and what is stored for them: each such id with the description
      of its first entry. */
  lemma {:induction false} PlanStoresFirstDescription(registry: map<string, string>, states: seq<StateSpec>)
    requires forall i :: 0 <= i < |states| ==> states[i].desc != ""
    ensures forall j :: 0 <= j < |states| && FirstNewAt(CreatedIds(registry), states, j) ==>
      states[j].id in PlanCreateMany(registry, states).registry &&
      PlanCreateMany(registry, states).registry[states[j].id] == states[j].desc
    decreases |states|
  {
    if states != [] {
      var s := states[0];
      var known := CreatedIds(registry);
      var registry' := if Created(registry, s.id) then registry else registry[s.id := s.desc];
      assert CreatedIds(registry') == known + {s.id};
      PlanStoresFirstDescription(registry', states[1..]);
      PlanRegistry(registry', states[1..]);
      var r := PlanCreateMany(registry, states).registry;
      assert r == PlanCreateMany(registry', states[1..]).registry;
      forall j | 0 <= j < |states| && FirstNewAt(known, states, j)
        ensures states[j].id in r && r[states[j].id] == states[j].desc
      {
        if j > 0 {
          FirstNewAtShift(known, states, j);
          assert states[1..][j - 1] == states[j];
        } else {
          assert Created(registry', s.id);
        }
      }
    }
  }

  /** The quirk of the truthiness test: an entry whose description is `''`
      does not stop a later entry with the same id, so both are sent. */
  lemma EmptyDescriptionRepeatSentTwice(s: StateSpec)
    requires s.desc == ""
    ensures PlanCreateMany(map[], [s, s]) == CreatePlan(map[s.id := ""], [s, s])
  {
    var reg := map[s.id := ""];
    assert [s, s][1..] == [s] && [s][1..] == [];
    assert !Created(reg, s.id) && reg[s.id := s.desc] == reg;
    assert PlanCreateMany(reg, [s]) == CreatePlan(reg, [s]);
  }

  /** The message `buildConnectorUpdate` returns, or its range error. The
      value is sent as the text of the parsed integer ("NaN" for NaN). */
  function ConnectorUpdateMessage(pluginId: string, id: string, value: string, data: Option<seq<DataItem>>,
                                  isShortId: bool): (r: Result<JsValue>)
    ensures r.Err? <==> Connectors.CheckValue(value).Err?
    ensures r.Err? ==> r.error == Connectors.CheckValue(value).error
  {
    match Connectors.CheckValue(value)
    case Err(e) => Err(e)
    case Ok(n) =>
      Ok(Obj([Member("type", Str("connectorUpdate")), Member("value", Str(Connectors.ValueText(n))),
              Connectors.Target(pluginId, id, data, isShortId)]))
  }

  /** What the update carries: its type, the decimal text of the parsed
      value (or "NaN"), which reads back as the one given, and either the
      short id as given or the long connector id. */
  lemma ConnectorUpdateFields(pluginId: string, id: string, value: string, data: Option<seq<DataItem>>,
                              isShortId: bool)
    requires ConnectorUpdateMessage(pluginId, id, value, data, isShortId).Ok?
    ensures var m := ConnectorUpdateMessage(pluginId, id, value, data, isShortId).value;
      m.Obj? && Get(m.members, "type") == Str("connectorUpdate") &&
      (Numbers.ParseInt(value).Some? ==> Get(m.members, "value") == Str(Numbers.IntToString(Numbers.ParseInt(value).value))) &&
      (Numbers.ParseInt(value).None? ==> Get(m.members, "value") == Str("NaN")) &&
      Get(m.members, "value").Str? && Numbers.ParseInt(Get(m.members, "value").s) == Numbers.ParseInt(value) &&
      (isShortId ==> Get(m.members, "shortId") == Str(id) && Get(m.members, "connectorId") == Undefined) &&
      (!isShortId ==>
        Get(m.members, "connectorId") == Str(Connectors.LongConnectorId(pluginId, id, data)) &&
        Get(m.members, "shortId") == Undefined)
  {
    var n := Connectors.CheckValue(value).value;
    Connectors.ValueTextReadsBack(value);
    var a := Member("type", Str("connectorUpdate"));
    var b := Member("value", Str(Connectors.ValueText(n)));
    var c := Connectors.Target(pluginId, id, data, isShortId);
    GetOfThree(a, b, c, "type");
    GetOfThree(a, b, c, "value");
    GetOfThree(a, b, c, "shortId");
    GetOfThree(a, b, c, "connectorId");
  }

  /** The id `connectorUpdateMany` passes on: `shortId` when it is present
      and truthy; an entry with `shortId: ''` keeps its own `id`, which then
      goes out as the short id. */
  function EffectiveId(c: Connector): string {
    if c.shortId.Some? && c.shortId.value != "" then c.shortId.value else c.id
  }

  function UpdateFor(pluginId: string, c: Connector): Result<JsValue> {
    ConnectorUpdateMessage(pluginId, EffectiveId(c), c.value, c.data, c.shortId.Some?)
  }

  /** `buildConnectorUpdate` as `connectorUpdateMany` applies it to each entry. */
  function Updates(pluginId: string): Connector -> Result<JsValue> {
    c => UpdateFor(pluginId, c)
  }

  /** The array `connectorUpdateMany` sends, or the first error met. */
  function ConnectorBatch(pluginId: string, connectors: seq<Connector>): Result<seq<JsValue>> {
    Connectors.ConnectorBatch(Updates(pluginId), connectors)
  }

  /** `connectorUpdateMany` fails exactly when some connector's value is out
      of range, with the error of the first such connector. */
  lemma ConnectorBatchFailsOnOutOfRange(pluginId: string, connectors: seq<Connector>)
    ensures ConnectorBatch(pluginId, connectors).Err? <==>
      exists i :: 0 <= i < |connectors| && Connectors.CheckValue(connectors[i].value).Err?
    ensures ConnectorBatch(pluginId, connectors).Err? ==>
      exists i :: 0 <= i < |connectors| && Connectors.CheckValue(connectors[i].value) == Err(ConnectorBatch(pluginId, connectors).error) &&
        forall j :: 0 <= j < i ==> Connectors.CheckValue(connectors[j].value).Ok?
  {
    var update := Updates(pluginId);
    Connectors.ConnectorBatchFailsOnFirstError(update, connectors);
    forall c ensures update(c).Err? <==> Connectors.CheckValue(c.value).Err?
      ensures update(c).Err? ==> update(c).error == Connectors.CheckValue(c.value).error
    {
      assert update(c) == UpdateFor(pluginId, c);
    }
  }

  /** What a successful `connectorUpdateMany` sends for each entry: the
      decimal text of the parsed value (or "NaN"), which reads back as the
      entry's value, and the entry's `shortId`
      when it is non-empty, its own `id` as the short id when `shortId` is
      `''`, else its long connector id. */
  lemma ConnectorBatchContents(pluginId: string, connectors: seq<Connector>)
    requires ConnectorBatch(pluginId, connectors).Ok?
    ensures |ConnectorBatch(pluginId, connectors).value| == |connectors|
    ensures forall i :: 0 <= i < |connectors| ==>
      var m := ConnectorBatch(pluginId, connectors).value[i];
      var c := connectors[i];
      && m.Obj? && Get(m.members, "type") == Str("connectorUpdate")
      && (Numbers.ParseInt(c.value).Some? ==>
            Get(m.members, "value") == Str(Numbers.IntToString(Numbers.ParseInt(c.value).value)))
      && (Numbers.ParseInt(c.value).None? ==> Get(m.members, "value") == Str("NaN"))
      && Get(m.members, "value").Str? && Numbers.ParseInt(Get(m.members, "value").s) == Numbers.ParseInt(c.value)
      && (Populated(c.shortId) ==> Get(m.members, "shortId") == Str(c.shortId.value))
      && (c.shortId == Some("") ==> Get(m.members, "shortId") == Str(c.id))
      && (c.shortId.None? ==> Get(m.members, "connectorId") == Str(Connectors.LongConnectorId(pluginId, c.id, c.data)))
  {
    Connectors.ConnectorBatchOnePerConnector(Updates(pluginId), connectors);
    forall i | 0 <= i < |connectors|
      ensures var m := ConnectorBatch(pluginId, connectors).value[i];
        var c := connectors[i];
        && m.Obj? && Get(m.members, "type") == Str("connectorUpdate")
        && (Numbers.ParseInt(c.value).Some? ==>
              Get(m.members, "value") == Str(Numbers.IntToString(Numbers.ParseInt(c.value).value)))
        && (Numbers.ParseInt(c.value).None? ==> Get(m.members, "value") == Str("NaN"))
        && Get(m.members, "value").Str? && Numbers.ParseInt(Get(m.members, "value").s) == Numbers.ParseInt(c.value)
        && (Populated(c.shortId) ==> Get(m.members, "shortId") == Str(c.shortId.value))
        && (c.shortId == Some("") ==> Get(m.members, "shortId") == Str(c.id))
        && (c.shortId.None? ==> Get(m.members, "connectorId") == Str(Connectors.LongConnectorId(pluginId, c.id, c.data)))
    {
      var c := connectors[i];
      assert Updates(pluginId)(c) == UpdateFor(pluginId, c);
      ConnectorUpdateFields(pluginId, EffectiveId(c), c.value, c.data, c.shortId.Some?);
    }
  }

  /** A field of the action data that counts as missing: `undefined` or `''`
      (so `0` and `null` count as present). */
  predicate MissingActionField(v: JsValue) {
    v == Undefined || v == Str("")
  }

  predicate ActionDataIncomplete(data: seq<Member>) {
    MissingActionField(Get(data, "id")) || MissingActionField(Get(data, "minValue")) ||
    MissingActionField(Get(data, "maxValue")) || MissingActionField(Get(data, "type"))
  }

  /** The two checks of `updateActionData`, in source order. */
  function ActionDataCheck(data: seq<Member>): Outcome {
    if ActionDataIncomplete(data) then Fail(ActionDataMissing)
    else if Get(data, "type") != Str("number") then Fail(UnsupportedActionType)
    else Pass
  }

  class TouchPortalClient {
    var pluginId: string
    var customStates: map<string, string>
    /** Every `socket.write`, one element per call. */
    var writes: seq<string>

    constructor ()
      ensures pluginId == "" && customStates == map[] && writes == []
    {
      pluginId := "";
      customStates := map[];
      writes := [];
    }

    /** The part of `connect` that the model keeps: the plugin id is set
        (the socket, the update check and the handlers are not modelled).
        `options` is `None` when `connect()` is called without an argument,
        so that the default `{ pluginId: 'UNK' }` applies. */
    method Connect(options: Option<string>)
      modifies this`pluginId
      ensures pluginId == if options.None? then DEFAULT_PLUGIN_ID else options.value
    {
      pluginId := if options.None? then DEFAULT_PLUGIN_ID else options.value;
    }

    method Send(data: JsValue)
      modifies this`writes
      ensures writes == old(writes) + [Framing.Frame(data)]
    {
      writes := writes + [Render(data) + "\n"];
    }

    method SendArray(dataArray: seq<JsValue>) returns (r: Outcome)
      modifies this`writes
      ensures dataArray == [] ==> r == Fail(EmptyBatch) && writes == old(writes)
      ensures dataArray != [] ==> r == Pass && writes == old(writes) + [Framing.Batch(dataArray)]
    {
      if |dataArray| <= 0 {
        return Fail(EmptyBatch);
      }
      var dataStr := Framing.BuildPayload(dataArray);
      writes := writes + [dataStr];
      r := Pass;
    }

    method CreateState(id: string, desc: string, defaultValue: string, parentGroup: Option<string>) returns (r: Outcome)
      modifies this`customStates, this`writes
      ensures Created(old(customStates), id) ==>
        r == Fail(DuplicateState(id)) && customStates == old(customStates) && writes == old(writes)
      ensures !Created(old(customStates), id) ==>
        r == Pass && customStates == old(customStates)[id := desc] &&
        writes == old(writes) + [Framing.Frame(CreateStateMessage(id, desc, defaultValue, parentGroup))]
    {
      if Created(customStates, id) {
        return Fail(DuplicateState(id));
      }
      customStates := customStates[id := desc];
      Send(CreateStateMessage(id, desc, defaultValue, parentGroup));
      r := Pass;
    }

    method CreateStateMany(states: seq<StateSpec>) returns (r: Outcome)
      modifies this`customStates, this`writes
      ensures states == [] ==>
        r == Fail(CreateManyEmpty) && customStates == old(customStates) && writes == old(writes)
      ensures states != [] ==> customStates == PlanCreateMany(old(customStates), states).registry
      ensures states != [] ==>
        var sent := CreateStateMessages(PlanCreateMany(old(customStates), states).accepted);
        && (sent == [] ==> r == Fail(EmptyBatch) && writes == old(writes))
        && (sent != [] ==> r == Pass && writes == old(writes) + [Framing.Batch(sent)])
    {
      if |states| <= 0 {
        return Fail(CreateManyEmpty);
      }
      ghost var plan := PlanCreateMany(customStates, states);
      ghost var sofar: seq<StateSpec> := [];
      var createStateArray: seq<JsValue> := [];
      var i := 0;
      while i < |states|
        invariant 0 <= i <= |states|
        invariant writes == old(writes)
        invariant PlanCreateMany(customStates, states[i..]).registry == plan.registry
        invariant sofar + PlanCreateMany(customStates, states[i..]).accepted == plan.accepted
        invariant createStateArray == CreateStateMessages(sofar)
      {
        var state := states[i];
        assert states[i..][0] == state && states[i..][1..] == states[i + 1..];
        if Created(customStates, state.id) {
          // skipped with a warning in the log
        } else {
          ghost var rest := PlanCreateMany(customStates[state.id := state.desc], states[i + 1..]).accepted;
          assert sofar + ([state] + rest) == (sofar + [state]) + rest;
          CreateStateMessagesSnoc(sofar, state);
          customStates := customStates[state.id := state.desc];
          createStateArray := createStateArray + [CreateStateMessage(state.id, state.desc, state.defaultValue, state.parentGroup)];
          sofar := sofar + [state];
        }
        i := i + 1;
      }
      assert states[i..] == [];
      assert sofar == plan.accepted;
      r := SendArray(createStateArray);
    }

    /** `customStates[id] === undefined` is the test, so a state created with
      description `''` can be removed although it is not seen as created. */
    method RemoveState(id: string) returns (r: Outcome)
      modifies this`customStates, this`writes
      ensures id !in old(customStates) ==>
        r == Fail(UnknownState(id)) && customStates == old(customStates) && writes == old(writes)
      ensures id in old(customStates) ==>
        r == Pass && customStates == old(customStates) - {id} &&
        writes == old(writes) + [Framing.Frame(RemoveStateMessage(id))]
    {
      if id !in customStates {
        return Fail(UnknownState(id));
      }
      customStates := customStates - {id};
      Send(RemoveStateMessage(id));
      r := Pass;
    }

    method ChoiceUpdate(id: string, value: seq<string>) returns (r: Outcome)
      modifies this`writes
      ensures value == [] ==> r == Fail(ChoiceValueEmpty) && writes == old(writes)
      ensures value != [] ==> r == Pass && writes == old(writes) + [Framing.Frame(ChoiceUpdateMessage(id, value))]
    {
      if |value| <= 0 {
        return Fail(ChoiceValueEmpty);
      }
      Send(ChoiceUpdateMessage(id, value));
      r := Pass;
    }

    /** `instanceId` is `None` when the caller leaves it out. */
    method ChoiceUpdateSpecific(id: string, value: seq<string>, instanceId: Option<string>) returns (r: Outcome)
      modifies this`writes
      ensures value == [] ==> r == Fail(ChoiceSpecificValueEmpty) && writes == old(writes)
      ensures value != [] && !Populated(instanceId) ==> r == Fail(InstanceIdMissing) && writes == old(writes)
      ensures value != [] && Populated(instanceId) ==>
        r == Pass && writes == old(writes) + [Framing.Frame(ChoiceUpdateSpecificMessage(id, value, instanceId.value))]
    {
      if |value| <= 0 {
        return Fail(ChoiceSpecificValueEmpty);
      }
      if instanceId.None? || instanceId.value == "" {
        return Fail(InstanceIdMissing);
      }
      Send(ChoiceUpdateSpecificMessage(id, value, instanceId.value));
      r := Pass;
    }

    method SettingUpdate(name: string, value: string)
      modifies this`writes
      ensures writes == old(writes) + [Framing.Frame(SettingUpdateMessage(name, value))]
    {
      Send(SettingUpdateMessage(name, value));
    }

    method StateUpdate(id: string, value: string)
      modifies this`writes
      ensures writes == old(writes) + [Framing.Frame(StateUpdateMessage(id, value))]
    {
      Send(StateUpdateMessage(id, value));
    }

    method StateUpdateMany(states: seq<StateUpdate>) returns (r: Outcome)
      modifies this`writes
      ensures states == [] ==> r == Fail(StateUpdateManyEmpty) && writes == old(writes)
      ensures states != [] ==> r == Pass && writes == old(writes) + [Framing.Batch(StateUpdateMessages(states))]
    {
      if |states| <= 0 {
        return Fail(StateUpdateManyEmpty);
      }
      var stateArray: seq<JsValue> := [];
      var i := 0;
      while i < |states|
        invariant 0 <= i <= |states|
        invariant stateArray == StateUpdateMessages(states[..i])
      {
        assert StateUpdateMessages(states[..i + 1]) == stateArray + [StateUpdateMessage(states[i].id, states[i].value)];
        stateArray := stateArray + [StateUpdateMessage(states[i].id, states[i].value)];
        i := i + 1;
      }
      assert states[..i] == states;
      r := SendArray(stateArray);
    }

    method BuildConnectorUpdate(id: string, value: string, data: Option<seq<DataItem>>, isShortId: bool)
      returns (r: Result<JsValue>)
      ensures r == ConnectorUpdateMessage(pluginId, id, value, data, isShortId)
    {
      var newValue := Numbers.ParseInt(value);
      if newValue.Some? && (newValue.value < 0 || newValue.value > 100) {
        return Err(OutOfRange(newValue.value));
      }
      var valueMember := Member("value", Str(Connectors.ValueText(newValue)));
      if isShortId {
        r := Ok(Obj([Member("type", Str("connectorUpdate")), valueMember, Member("shortId", Str(id))]));
      } else {
        var dataStr := Connectors.BuildDataSuffix(data);
        var connectorId := Connectors.CONNECTOR_PREFIX + "_" + pluginId + "_" + id + dataStr;
        r := Ok(Obj([Member("type", Str("connectorUpdate")), valueMember, Member("connectorId", Str(connectorId))]));
      }
    }

    method ConnectorUpdate(id: string, value: string, data: Option<seq<DataItem>>, isShortId: bool) returns (r: Outcome)
      modifies this`writes
      ensures ConnectorUpdateMessage(pluginId, id, value, data, isShortId).Err? ==>
        r == Fail(ConnectorUpdateMessage(pluginId, id, value, data, isShortId).error) && writes == old(writes)
      ensures ConnectorUpdateMessage(pluginId, id, value, data, isShortId).Ok? ==>
        r == Pass && writes == old(writes) + [Framing.Frame(ConnectorUpdateMessage(pluginId, id, value, data, isShortId).value)]
    {
      var u := BuildConnectorUpdate(id, value, data, isShortId);
      if u.Err? {
        return Fail(u.error);
      }
      Send(u.value);
      r := Pass;
    }

    method ConnectorUpdateMany(connectors: seq<Connector>) returns (r: Outcome)
      modifies this`writes
      ensures connectors == [] ==> r == Fail(ConnectorsEmpty) && writes == old(writes)
      ensures connectors != [] && ConnectorBatch(pluginId, connectors).Err? ==>
        r == Fail(ConnectorBatch(pluginId, connectors).error) && writes == old(writes)
      ensures connectors != [] && ConnectorBatch(pluginId, connectors).Ok? ==>
        r == Pass && writes == old(writes) + [Framing.Batch(ConnectorBatch(pluginId, connectors).value)]
    {
      if |connectors| <= 0 {
        return Fail(ConnectorsEmpty);
      }
      var connectorArray: seq<JsValue> := [];
      var i := 0;
      assert connectors[i..] == connectors;
      Connectors.PrependEmpty(ConnectorBatch(pluginId, connectors));
      while i < |connectors|
        invariant 0 <= i <= |connectors|
        invariant writes == old(writes)
        invariant ConnectorBatch(pluginId, connectors) ==
          Connectors.Prepend(connectorArray, ConnectorBatch(pluginId, connectors[i..]))
      {
        var conn := connectors[i];
        Connectors.ConnectorBatchStep(Updates(pluginId), connectors, i);
        var isShortId := conn.shortId.Some?;
        var id := if isShortId && conn.shortId.value != "" then conn.shortId.value else conn.id;
        var u := BuildConnectorUpdate(id, conn.value, conn.data, isShortId);
        if u.Err? {
          return Fail(u.error);
        }
        Connectors.PrependSnoc(connectorArray, u.value, ConnectorBatch(pluginId, connectors[i + 1..]));
        connectorArray := connectorArray + [u.value];
        i := i + 1;
      }
      assert connectors[i..] == [] && connectorArray + [] == connectorArray;
      Connectors.ConnectorBatchOnePerConnector(Updates(pluginId), connectors);
      r := SendArray(connectorArray);
    }

    method UpdateActionData(actionInstanceId: string, data: seq<Member>) returns (r: Outcome)
      modifies this`writes
      ensures r == ActionDataCheck(data)
      ensures r.Fail? ==> writes == old(writes)
      ensures r.Pass? ==> writes == old(writes) + [Framing.Frame(UpdateActionDataMessage(actionInstanceId, data))]
    {
      if ActionDataIncomplete(data) {
        return Fail(ActionDataMissing);
      }
      if Get(data, "type") != Str("number") {
        return Fail(UnsupportedActionType);
      }
      Send(UpdateActionDataMessage(actionInstanceId, data));
      r := Pass;
    }

    /** `optionsArray` is `None` when the caller leaves it out. */
    method SendNotification(notificationId: string, title: string, msg: string, optionsArray: Option<seq<JsValue>>)
      returns (r: Outcome)
      modifies this`writes
      ensures (optionsArray.None? || optionsArray.value == []) ==>
        r == Fail(NotificationOptionsMissing) && writes == old(writes)
      ensures optionsArray.Some? && optionsArray.value != [] ==>
        r == Pass && writes == old(writes) + [Framing.Frame(NotificationMessage(notificationId, title, msg, optionsArray.value))]
    {
      if optionsArray.None? || |optionsArray.value| <= 0 {
        return Fail(NotificationOptionsMissing);
      }
      Send(NotificationMessage(notificationId, title, msg, optionsArray.value));
      r := Pass;
    }

    method Pair()
      modifies this`writes
      ensures writes == old(writes) + [Framing.Frame(PairMessage(pluginId))]
    {
      Send(PairMessage(pluginId));
    }
  }
}
