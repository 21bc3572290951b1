/** The Set-based client class (src/client.ts): the registry is a set of
    state ids, and the outbound operations differ from the primary client
    in how `parentGroup`, connector values, short ids and action data are
    treated. The inbound data handler is the one of the primary client and
    is modelled once in `Dispatch`. */
module SetClient {
  import opened Results
  import opened Json
  import opened Shapes
  import opened Messages
  import Framing
  import Connectors
  import Numbers
  import IndexClient

  /** The createState message of `createState`: `parentGroup` is attached
      only when it is truthy. */
  function CreateStateMessage(id: string, desc: string, defaultValue: string, parentGroup: Option<string>): JsValue {
    var base := CreateStateBase(id, desc, defaultValue);
    Obj(if Populated(parentGroup) then base + [Member("parentGroup", Str(parentGroup.value))] else base)
  }

  /** `createState` sends a non-empty group and leaves out an empty or
      absent one. */
  lemma CreateStateGroup(id: string, desc: string, defaultValue: string, parentGroup: Option<string>)
    ensures Get(CreateStateMessage(id, desc, defaultValue, parentGroup).members, "parentGroup") ==
      if Populated(parentGroup) then Str(parentGroup.value) else Undefined
  {
  }

  /** The entry `createStateMany` queues for a state whose `parentGroup` is
      present. The test is inverted (`!state.parentGroup`): only an empty
      group is attached; a non-empty one is dropped. */
  function BatchEntryMessage(s: StateSpec): JsValue {
    var base := CreateStateBase(s.id, s.desc, s.defaultValue);
    Obj(if s.parentGroup == Some("") then base + [Member("parentGroup", Str(""))] else base)
  }

  /** No entry of a batch carries a non-empty group. */
  lemma BatchEntryGroup(s: StateSpec)
    ensures Get(BatchEntryMessage(s).members, "parentGroup") ==
      if s.parentGroup == Some("") then Str("") else Undefined
  {
  }

  /** The two clients send different messages for the same `createState`
      call with an empty group. */
  lemma EmptyGroupSentOnlyByIndexClient(id: string, desc: string, defaultValue: string)
    ensures Get(IndexClient.CreateStateMessage(id, desc, defaultValue, Some("")).members, "parentGroup") == Str("")
    ensures Get(CreateStateMessage(id, desc, defaultValue, Some("")).members, "parentGroup") == Undefined
  {
  }

  function BatchEntryMessages(states: seq<StateSpec>): seq<JsValue>
    decreases |states|
  {
    if states == [] then [] else [BatchEntryMessage(states[0])] + BatchEntryMessages(states[1..])
  }

  lemma {:induction false} BatchEntryMessagesSnoc(states: seq<StateSpec>, s: StateSpec)
    ensures BatchEntryMessages(states + [s]) == BatchEntryMessages(states) + [BatchEntryMessage(s)]
    decreases |states|
  {
    if states != [] {
      assert (states + [s])[1..] == states[1..] + [s];
      BatchEntryMessagesSnoc(states[1..], s);
    }
  }

  /** What `createStateMany` does to the registry, which entries it queues,
      and whether it threw. */
  datatype SetPlan = SetPlan(registry: set<string>, accepted: seq<StateSpec>, failed: bool)

  /** The `states.forEach` of `createStateMany`. An id already in the set is
      skipped; any other is added to the set first, and then, when its
      `parentGroup` is absent, `undefined.toString()` throws a TypeError:
      the ids added so far stay in the set and nothing is sent. */
  function PlanCreateMany(registry: set<string>, states: seq<StateSpec>): SetPlan
    decreases |states|
  {
    if states == [] then SetPlan(registry, [], false)
    else
      var s := states[0];
      if s.id in registry then PlanCreateMany(registry, states[1..])
      else if s.parentGroup.None? then SetPlan(registry + {s.id}, [], true)
      else
        var rest := PlanCreateMany(registry + {s.id}, states[1..]);
        SetPlan(rest.registry, [s] + rest.accepted, rest.failed)
  }

  /** Entry `i` is the first of its id, its id is not registered, and its
      `parentGroup` is absent: the entry that makes `createStateMany` throw. */
  predicate FreshUngrouped(registry: set<string>, states: seq<StateSpec>, i: int)
    requires 0 <= i < |states|
  {
    states[i].parentGroup.None? && states[i].id !in registry &&
    forall j :: 0 <= j < i ==> states[j].id != states[i].id
  }

  lemma FreshUngroupedShift(registry: set<string>, states: seq<StateSpec>, i: int)
    requires 0 < i < |states|
    ensures FreshUngrouped(registry, states, i) <==>
      FreshUngrouped(registry + {states[0].id}, states[1..], i - 1)
  {
  }

  /** `createStateMany` throws exactly when some entry is a first occurrence
      of an unregistered id with no `parentGroup`. */
  lemma {:induction false} PlanFailsOnUngrouped(registry: set<string>, states: seq<StateSpec>)
    ensures PlanCreateMany(registry, states).failed <==>
      exists i :: 0 <= i < |states| && FreshUngrouped(registry, states, i)
    decreases |states|
  {
    if states != [] {
      var s := states[0];
      var registry' := registry + {s.id};
      if s.id in registry || s.parentGroup.Some? {
        assert registry' == if s.id in registry then registry else registry + {s.id};
        PlanFailsOnUngrouped(if s.id in registry then registry else registry', states[1..]);
        assert !FreshUngrouped(registry, states, 0);
        if exists i :: 0 <= i < |states| && FreshUngrouped(registry, states, i) {
          var i :| 0 <= i < |states| && FreshUngrouped(registry, states, i);
          FreshUngroupedShift(registry, states, i);
          assert registry' == registry + {states[0].id};
        }
        if exists i :: 0 <= i < |states[1..]| && FreshUngrouped(registry', states[1..], i) {
          var i :| 0 <= i < |states[1..]| && FreshUngrouped(registry', states[1..], i);
          FreshUngroupedShift(registry, states, i + 1);
        }
      } else {
        assert FreshUngrouped(registry, states, 0);
      }
    }
  }

  /** When it does not throw, `createStateMany` registers every id of the
      batch; when it throws, the set has grown by some of them. */
  lemma {:induction false} PlanRegistry(registry: set<string>, states: seq<StateSpec>)
    ensures !PlanCreateMany(registry, states).failed ==> PlanCreateMany(registry, states).registry == registry + Ids(states)
    ensures registry <= PlanCreateMany(registry, states).registry <= registry + Ids(states)
    decreases |states|
  {
    if states != [] {
      var s := states[0];
      if s.id in registry {
        PlanRegistry(registry, states[1..]);
      } else if s.parentGroup.Some? {
        PlanRegistry(registry + {s.id}, states[1..]);
      }
    }
  }

  /** Every queued entry had its `parentGroup` present, and the ids queued
      are distinct and new to the registry. */
  lemma {:induction false} PlanAccepted(registry: set<string>, states: seq<StateSpec>)
    ensures var acc := PlanCreateMany(registry, states).accepted;
      && (forall i :: 0 <= i < |acc| ==> acc[i].parentGroup.Some? && acc[i].id !in registry)
      && DistinctIds(acc)
    decreases |states|
  {
    if states != [] {
      var s := states[0];
      if s.id in registry {
        PlanAccepted(registry, states[1..]);
      } else if s.parentGroup.Some? {
        PlanAccepted(registry + {s.id}, states[1..]);
        var rest := PlanCreateMany(registry + {s.id}, states[1..]).accepted;
        var acc := [s] + rest;
        forall i | 0 <= i < |acc| ensures acc[i].parentGroup.Some? && acc[i].id !in registry {
          if i > 0 {
            assert acc[i] == rest[i - 1];
          }
        }
        forall i, j | 0 <= i < j < |acc| ensures acc[i].id != acc[j].id {
          assert acc[j] == rest[j - 1];
          if i > 0 {
            assert acc[i] == rest[i - 1];
          }
        }
      }
    }
  }

  /** Without a throw, the entries queued are the first entry of each id
      not in the set, in input order. */
  lemma {:induction false} PlanFirstOccurrences(registry: set<string>, states: seq<StateSpec>)
    ensures !PlanCreateMany(registry, states).failed ==>
      PlanCreateMany(registry, states).accepted == FirstNew(registry, states)
    decreases |states|
  {
    if states != [] {
      var s := states[0];
      FirstNewCons(registry, states);
      if s.id in registry {
        assert registry + {s.id} == registry;
        PlanFirstOccurrences(registry, states[1..]);
      } else if s.parentGroup.Some? {
        PlanFirstOccurrences(registry + {s.id}, states[1..]);
      }
    }
  }

  /** Without a throw, every id of the batch that is new to the set is
      queued exactly once, in input order. */
  lemma PlanQueuesNewIds(registry: set<string>, states: seq<StateSpec>)
    ensures var plan := PlanCreateMany(registry, states);
      !plan.failed ==>
        && IsSubsequence(plan.accepted, states)
        && Ids(plan.accepted) == Ids(states) - registry
        && DistinctIds(plan.accepted)
  {
    PlanFirstOccurrences(registry, states);
    FirstNewOrder(registry, states);
    FirstNewIds(registry, states);
    FirstNewDistinct(registry, states);
  }

  /** When `createStateMany` throws at entry `i`, the first entry that is a
      first occurrence of an unregistered id without a group, the set holds
      the old ids and the ids of every entry up to and including `i`. */
  lemma {:induction false} PlanRegistryOnThrow(registry: set<string>, states: seq<StateSpec>, i: int)
    requires 0 <= i < |states| && FreshUngrouped(registry, states, i)
    requires forall j :: 0 <= j < i ==> !FreshUngrouped(registry, states, j)
    ensures PlanCreateMany(registry, states).failed
    ensures PlanCreateMany(registry, states).registry == registry + Ids(states[..i + 1])
    decreases i
  {
    var s := states[0];
    var registry' := registry + {s.id};
    assert states[..i + 1][0] == s && states[..i + 1][1..] == states[1..][..i];
    if i > 0 {
      assert !FreshUngrouped(registry, states, 0);
      FreshUngroupedShift(registry, states, i);
      forall j | 0 <= j < i - 1 ensures !FreshUngrouped(registry', states[1..], j) {
        FreshUngroupedShift(registry, states, j + 1);
      }
      PlanRegistryOnThrow(registry', states[1..], i - 1);
      if s.id in registry {
        assert registry' == registry;
      }
    }
  }

  /** `buildConnectorUpdate` of this client: the value goes out as a
      JavaScript number (NaN included) rather than as text. */
  function ConnectorUpdateMessage(pluginId: string, id: string, value: string, data: Option<seq<DataItem>>,
                                  isShortId: bool): (r: Result<JsValue>)
    ensures r.Err? <==> Connectors.CheckValue(value).Err?
    ensures r.Err? ==> r.error == Connectors.CheckValue(value).error
  {
    match Connectors.CheckValue(value)
    case Err(e) => Err(e)
    case Ok(n) =>
      Ok(Obj([Member("type", Str("connectorUpdate")), Member("value", Connectors.ValueNumber(n)),
              Connectors.Target(pluginId, id, data, isShortId)]))
  }

  /** What the update carries: its type, the parsed value as a number (NaN
      when the text has no leading digits), and either the short id as
      given or the long connector id. */
  lemma ConnectorUpdateFields(pluginId: string, id: string, value: string, data: Option<seq<DataItem>>,
                              isShortId: bool)
    requires ConnectorUpdateMessage(pluginId, id, value, data, isShortId).Ok?
    ensures var m := ConnectorUpdateMessage(pluginId, id, value, data, isShortId).value;
      m.Obj? && Get(m.members, "type") == Str("connectorUpdate") &&
      (Numbers.ParseInt(value).Some? ==> Get(m.members, "value") == Num(Numbers.ParseInt(value).value)) &&
      (Numbers.ParseInt(value).None? ==> Get(m.members, "value") == NaN) &&
      (isShortId ==> Get(m.members, "shortId") == Str(id) && Get(m.members, "connectorId") == Undefined) &&
      (!isShortId ==>
        Get(m.members, "connectorId") == Str(Connectors.LongConnectorId(pluginId, id, data)) &&
        Get(m.members, "shortId") == Undefined)
  {
    var n := Connectors.CheckValue(value).value;
    var a := Member("type", Str("connectorUpdate"));
    var b := Member("value", Connectors.ValueNumber(n));
    var c := Connectors.Target(pluginId, id, data, isShortId);
    GetOfThree(a, b, c, "type");
    GetOfThree(a, b, c, "value");
    GetOfThree(a, b, c, "shortId");
    GetOfThree(a, b, c, "connectorId");
  }

  /** The id `connectorUpdateMany` passes on: `shortId` whenever it is
      present, even when it is empty. */
  function EffectiveId(c: Connector): string {
    if c.shortId.Some? then c.shortId.value else c.id
  }

  function UpdateFor(pluginId: string, c: Connector): Result<JsValue> {
    ConnectorUpdateMessage(pluginId, EffectiveId(c), c.value, c.data, c.shortId.Some?)
  }

  function Updates(pluginId: string): Connector -> Result<JsValue> {
    c => UpdateFor(pluginId, c)
  }

  /** The array `connectorUpdateMany` sends, or the first error met. */
  function ConnectorBatch(pluginId: string, connectors: seq<Connector>): Result<seq<JsValue>> {
    Connectors.ConnectorBatch(Updates(pluginId), connectors)
  }

  /** What a successful `connectorUpdateMany` sends for each entry: the
      parsed value as a number, and the entry's `shortId` when it has one
      (the empty string included), else its long connector id. */
  lemma ConnectorBatchContents(pluginId: string, connectors: seq<Connector>)
    requires ConnectorBatch(pluginId, connectors).Ok?
    ensures |ConnectorBatch(pluginId, connectors).value| == |connectors|
    ensures forall i :: 0 <= i < |connectors| ==>
      var m := ConnectorBatch(pluginId, connectors).value[i];
      var c := connectors[i];
      && m.Obj? && Get(m.members, "type") == Str("connectorUpdate")
      && Get(m.members, "value") == Connectors.ValueNumber(Numbers.ParseInt(c.value))
      && (c.shortId.Some? ==> Get(m.members, "shortId") == Str(c.shortId.value))
      && (c.shortId.None? ==> Get(m.members, "connectorId") == Str(Connectors.LongConnectorId(pluginId, c.id, c.data)))
  {
    Connectors.ConnectorBatchOnePerConnector(Updates(pluginId), connectors);
    forall i | 0 <= i < |connectors|
      ensures var m := ConnectorBatch(pluginId, connectors).value[i];
        var c := connectors[i];
        && m.Obj? && Get(m.members, "type") == Str("connectorUpdate")
        && Get(m.members, "value") == Connectors.ValueNumber(Numbers.ParseInt(c.value))
        && (c.shortId.Some? ==> Get(m.members, "shortId") == Str(c.shortId.value))
        && (c.shortId.None? ==> Get(m.members, "connectorId") == Str(Connectors.LongConnectorId(pluginId, c.id, c.data)))
    {
      var c := connectors[i];
      assert Updates(pluginId)(c) == UpdateFor(pluginId, c);
      ConnectorUpdateFields(pluginId, EffectiveId(c), c.value, c.data, c.shortId.Some?);
    }
  }

  /** An entry with `shortId: ''` goes out under the empty short id here,
      and under its own `id` from the primary client. */
  lemma EmptyShortIdDiffers(c: Connector)
    requires c.shortId == Some("")
    ensures EffectiveId(c) == ""
    ensures IndexClient.EffectiveId(c) == c.id
  {
  }

  /** `!data.id || !data.minValue || !data.maxValue || !data.type`: a field
      counts as missing when it is falsy, so `0` is rejected too. */
  predicate ActionDataIncomplete(data: seq<Member>) {
    !Truthy(Get(data, "id")) || !Truthy(Get(data, "minValue")) ||
    !Truthy(Get(data, "maxValue")) || !Truthy(Get(data, "type"))
  }

  /** The two checks of `updateActionData`, in source order. */
  function ActionDataCheck(data: seq<Member>): Outcome {
    if ActionDataIncomplete(data) then Fail(ActionDataMissing)
    else if Get(data, "type") != Str("number") then Fail(UnsupportedActionType)
    else Pass
  }

  /** Every action data this client accepts, the primary client accepts
      too; the converse fails for a minimum of 0. */
  lemma ActionDataStricter(data: seq<Member>)
    ensures ActionDataCheck(data) == Pass ==> IndexClient.ActionDataCheck(data) == Pass
  {
  }

  lemma ZeroMinimumRejected(id: string)
    requires id != ""
    ensures var data := [Member("id", Str(id)), Member("minValue", Num(0)), Member("maxValue", Num(100)),
                         Member("type", Str("number"))];
      IndexClient.ActionDataCheck(data) == Pass && ActionDataCheck(data) == Fail(ActionDataMissing)
  {
    var data := [Member("id", Str(id)), Member("minValue", Num(0)), Member("maxValue", Num(100)),
                 Member("type", Str("number"))];
    var abc := data[..3];
    assert data == abc + [data[3]];
    assert abc == [data[0], data[1], data[2]];
    GetSnoc(abc, data[3], "id");
    GetSnoc(abc, data[3], "minValue");
    GetSnoc(abc, data[3], "maxValue");
    GetSnoc(abc, data[3], "type");
    GetOfThree(data[0], data[1], data[2], "id");
    GetOfThree(data[0], data[1], data[2], "minValue");
    GetOfThree(data[0], data[1], data[2], "maxValue");
    GetOfThree(data[0], data[1], data[2], "type");
  }

  class TouchPortalClient {
    var pluginId: string
    var customStates: set<string>
    /** Every `socket.write`, one element per call. */
    var writes: seq<string>

    constructor ()
      ensures pluginId == "" && customStates == {} && writes == []
    {
      pluginId := "";
      customStates := {};
      writes := [];
    }

    /** The part of `connect` that the model keeps: the plugin id is set. */
    method Connect(id: string)
      modifies this`pluginId
      ensures pluginId == id
    {
      pluginId := id;
    }

    method Send(data: JsValue)
      modifies this`writes
      ensures writes == old(writes) + [Framing.Frame(data)]
    {
      writes := writes + [Render(data) + "\n"];
    }

    method SendArray(dataArray: seq<JsValue>) returns (r: Outcome)
      modifies this`writes
      ensures dataArray == [] ==> r == Fail(EmptyBatch) && writes == old(writes)
      ensures dataArray != [] ==> r == Pass && writes == old(writes) + [Framing.Batch(dataArray)]
    {
      if |dataArray| <= 0 {
        return Fail(EmptyBatch);
      }
      var dataStr := Framing.BuildPayload(dataArray);
      writes := writes + [dataStr];
      r := Pass;
    }

    method CreateState(id: string, desc: string, defaultValue: string, parentGroup: Option<string>) returns (r: Outcome)
      modifies this`customStates, this`writes
      ensures id in old(customStates) ==>
        r == Fail(DuplicateState(id)) && customStates == old(customStates) && writes == old(writes)
      ensures id !in old(customStates) ==>
        r == Pass && customStates == old(customStates) + {id} &&
        writes == old(writes) + [Framing.Frame(CreateStateMessage(id, desc, defaultValue, parentGroup))]
    {
      if id in customStates {
        return Fail(DuplicateState(id));
      }
      customStates := customStates + {id};
      var newState := CreateStateBase(id, desc, defaultValue);
      if parentGroup.Some? && parentGroup.value != "" {
        newState := newState + [Member("parentGroup", Str(parentGroup.value))];
      }
      Send(Obj(newState));
      r := Pass;
    }

    method CreateStateMany(states: seq<StateSpec>) returns (r: Outcome)
      modifies this`customStates, this`writes
      ensures states == [] ==>
        r == Fail(CreateManyEmpty) && customStates == old(customStates) && writes == old(writes)
      ensures states != [] ==> customStates == PlanCreateMany(old(customStates), states).registry
      ensures states != [] && PlanCreateMany(old(customStates), states).failed ==>
        r == Fail(TypeError) && writes == old(writes)
      ensures states != [] && !PlanCreateMany(old(customStates), states).failed ==>
        var sent := BatchEntryMessages(PlanCreateMany(old(customStates), states).accepted);
        && (sent == [] ==> r == Fail(EmptyBatch) && writes == old(writes))
        && (sent != [] ==> r == Pass && writes == old(writes) + [Framing.Batch(sent)])
    {
      if |states| <= 0 {
        return Fail(CreateManyEmpty);
      }
      ghost var plan := PlanCreateMany(customStates, states);
      ghost var sofar: seq<StateSpec> := [];
      var createStateArray: seq<JsValue> := [];
      var i := 0;
      while i < |states|
        invariant 0 <= i <= |states|
        invariant writes == old(writes)
        invariant PlanCreateMany(customStates, states[i..]).registry == plan.registry
        invariant PlanCreateMany(customStates, states[i..]).failed == plan.failed
        invariant sofar + PlanCreateMany(customStates, states[i..]).accepted == plan.accepted
        invariant createStateArray == BatchEntryMessages(sofar)
      {
        var state := states[i];
        assert states[i..][0] == state && states[i..][1..] == states[i + 1..];
        if state.id in customStates {
          // skipped with a warning in the log
        } else {
          customStates := customStates + {state.id};
          if state.parentGroup.None? {
            // `undefined.toString()`
            return Fail(TypeError);
          }
          ghost var rest := PlanCreateMany(customStates, states[i + 1..]).accepted;
          assert sofar + ([state] + rest) == (sofar + [state]) + rest;
          BatchEntryMessagesSnoc(sofar, state);
          var newState := CreateStateBase(state.id, state.desc, state.defaultValue);
          if state.parentGroup.value == "" {
            newState := newState + [Member("parentGroup", Str(""))];
          }
          createStateArray := createStateArray + [Obj(newState)];
          sofar := sofar + [state];
        }
        i := i + 1;
      }
      assert states[i..] == [];
      assert sofar == plan.accepted;
      r := SendArray(createStateArray);
    }

    method RemoveState(id: string) returns (r: Outcome)
      modifies this`customStates, this`writes
      ensures id !in old(customStates) ==>
        r == Fail(UnknownState(id)) && customStates == old(customStates) && writes == old(writes)
      ensures id in old(customStates) ==>
        r == Pass && customStates == old(customStates) - {id} &&
        writes == old(writes) + [Framing.Frame(RemoveStateMessage(id))]
    {
      if id !in customStates {
        return Fail(UnknownState(id));
      }
      customStates := customStates - {id};
      Send(RemoveStateMessage(id));
      r := Pass;
    }

    method ChoiceUpdate(id: string, value: seq<string>) returns (r: Outcome)
      modifies this`writes
      ensures value == [] ==> r == Fail(ChoiceValueEmpty) && writes == old(writes)
      ensures value != [] ==> r == Pass && writes == old(writes) + [Framing.Frame(ChoiceUpdateMessage(id, value))]
    {
      if |value| <= 0 {
        return Fail(ChoiceValueEmpty);
      }
      Send(ChoiceUpdateMessage(id, value));
      r := Pass;
    }

    /** `instanceId` is `None` when the caller leaves it out. */
    method ChoiceUpdateSpecific(id: string, value: seq<string>, instanceId: Option<string>) returns (r: Outcome)
      modifies this`writes
      ensures value == [] ==> r == Fail(ChoiceSpecificValueEmpty) && writes == old(writes)
      ensures value != [] && !Populated(instanceId) ==> r == Fail(InstanceIdMissing) && writes == old(writes)
      ensures value != [] && Populated(instanceId) ==>
        r == Pass && writes == old(writes) + [Framing.Frame(ChoiceUpdateSpecificMessage(id, value, instanceId.value))]
    {
      if |value| <= 0 {
        return Fail(ChoiceSpecificValueEmpty);
      }
      if !Populated(instanceId) {
        return Fail(InstanceIdMissing);
      }
      Send(ChoiceUpdateSpecificMessage(id, value, instanceId.value));
      r := Pass;
    }

    method SettingUpdate(name: string, value: string)
      modifies this`writes
      ensures writes == old(writes) + [Framing.Frame(SettingUpdateMessage(name, value))]
    {
      Send(SettingUpdateMessage(name, value));
    }

    method StateUpdate(id: string, value: string)
      modifies this`writes
      ensures writes == old(writes) + [Framing.Frame(StateUpdateMessage(id, value))]
    {
      Send(StateUpdateMessage(id, value));
    }

    method StateUpdateMany(updates: seq<StateUpdate>) returns (r: Outcome)
      modifies this`writes
      ensures updates == [] ==> r == Fail(StateUpdateManyEmpty) && writes == old(writes)
      ensures updates != [] ==> r == Pass && writes == old(writes) + [Framing.Batch(StateUpdateMessages(updates))]
    {
      if |updates| <= 0 {
        return Fail(StateUpdateManyEmpty);
      }
      var stateUpdateArray: seq<JsValue> := [];
      var i := 0;
      while i < |updates|
        invariant 0 <= i <= |updates|
        invariant stateUpdateArray == StateUpdateMessages(updates[..i])
      {
        assert StateUpdateMessages(updates[..i + 1]) ==
          stateUpdateArray + [StateUpdateMessage(updates[i].id, updates[i].value)];
        stateUpdateArray := stateUpdateArray + [StateUpdateMessage(updates[i].id, updates[i].value)];
        i := i + 1;
      }
      assert updates[..i] == updates;
      r := SendArray(stateUpdateArray);
    }

    method BuildConnectorUpdate(id: string, value: string, data: Option<seq<DataItem>>, isShortId: bool)
      returns (r: Result<JsValue>)
      ensures r == ConnectorUpdateMessage(pluginId, id, value, data, isShortId)
    {
      var newValue := Numbers.ParseInt(value);
      if newValue.Some? && (newValue.value < 0 || newValue.value > 100) {
        return Err(OutOfRange(newValue.value));
      }
      var valueMember := Member("value", Connectors.ValueNumber(newValue));
      if isShortId {
        r := Ok(Obj([Member("type", Str("connectorUpdate")), valueMember, Member("shortId", Str(id))]));
      } else {
        var dataStr := Connectors.BuildDataSuffix(data);
        var connectorId := Connectors.CONNECTOR_PREFIX + "_" + pluginId + "_" + id + dataStr;
        r := Ok(Obj([Member("type", Str("connectorUpdate")), valueMember, Member("connectorId", Str(connectorId))]));
      }
    }

    method ConnectorUpdate(id: string, value: string, data: Option<seq<DataItem>>, isShortId: bool) returns (r: Outcome)
      modifies this`writes
      ensures ConnectorUpdateMessage(pluginId, id, value, data, isShortId).Err? ==>
        r == Fail(ConnectorUpdateMessage(pluginId, id, value, data, isShortId).error) && writes == old(writes)
      ensures ConnectorUpdateMessage(pluginId, id, value, data, isShortId).Ok? ==>
        r == Pass && writes == old(writes) + [Framing.Frame(ConnectorUpdateMessage(pluginId, id, value, data, isShortId).value)]
    {
      var u := BuildConnectorUpdate(id, value, data, isShortId);
      if u.Err? {
        return Fail(u.error);
      }
      Send(u.value);
      r := Pass;
    }

    method ConnectorUpdateMany(connectors: seq<Connector>) returns (r: Outcome)
      modifies this`writes
      ensures connectors == [] ==> r == Fail(ConnectorsEmpty) && writes == old(writes)
      ensures connectors != [] && ConnectorBatch(pluginId, connectors).Err? ==>
        r == Fail(ConnectorBatch(pluginId, connectors).error) && writes == old(writes)
      ensures connectors != [] && ConnectorBatch(pluginId, connectors).Ok? ==>
        r == Pass && writes == old(writes) + [Framing.Batch(ConnectorBatch(pluginId, connectors).value)]
    {
      if |connectors| <= 0 {
        return Fail(ConnectorsEmpty);
      }
      var connectorArray: seq<JsValue> := [];
      var i := 0;
      assert connectors[i..] == connectors;
      Connectors.PrependEmpty(ConnectorBatch(pluginId, connectors));
      while i < |connectors|
        invariant 0 <= i <= |connectors|
        invariant writes == old(writes)
        invariant ConnectorBatch(pluginId, connectors) ==
          Connectors.Prepend(connectorArray, ConnectorBatch(pluginId, connectors[i..]))
      {
        var connector := connectors[i];
        Connectors.ConnectorBatchStep(Updates(pluginId), connectors, i);
        var isShortId := connector.shortId.Some?;
        var id := if isShortId then connector.shortId.value else connector.id;
        var u := BuildConnectorUpdate(id, connector.value, connector.data, isShortId);
        if u.Err? {
          return Fail(u.error);
        }
        Connectors.PrependSnoc(connectorArray, u.value, ConnectorBatch(pluginId, connectors[i + 1..]));
        connectorArray := connectorArray + [u.value];
        i := i + 1;
      }
      assert connectors[i..] == [] && connectorArray + [] == connectorArray;
      Connectors.ConnectorBatchOnePerConnector(Updates(pluginId), connectors);
      r := SendArray(connectorArray);
    }

    method UpdateActionData(actionInstanceId: string, data: seq<Member>) returns (r: Outcome)
      modifies this`writes
      ensures r == ActionDataCheck(data)
      ensures r.Fail? ==> writes == old(writes)
      ensures r.Pass? ==> writes == old(writes) + [Framing.Frame(UpdateActionDataMessage(actionInstanceId, data))]
    {
      if ActionDataIncomplete(data) {
        return Fail(ActionDataMissing);
      }
      if Get(data, "type") != Str("number") {
        return Fail(UnsupportedActionType);
      }
      Send(UpdateActionDataMessage(actionInstanceId, data));
      r := Pass;
    }

    /** `optionsArray` is `None` when the caller leaves it out. */
    method SendNotification(notificationId: string, title: string, msg: string, optionsArray: Option<seq<JsValue>>)
      returns (r: Outcome)
      modifies this`writes
      ensures (optionsArray.None? || optionsArray.value == []) ==>
        r == Fail(NotificationOptionsMissing) && writes == old(writes)
      ensures optionsArray.Some? && optionsArray.value != [] ==>
        r == Pass && writes == old(writes) + [Framing.Frame(NotificationMessage(notificationId, title, msg, optionsArray.value))]
    {
      if optionsArray.None? || |optionsArray.value| <= 0 {
        return Fail(NotificationOptionsMissing);
      }
      Send(NotificationMessage(notificationId, title, msg, optionsArray.value));
      r := Pass;
    }

    method Pair()
      modifies this`writes
      ensures writes == old(writes) + [Framing.Frame(PairMessage(pluginId))]
    {
      Send(PairMessage(pluginId));
    }
  }
}
