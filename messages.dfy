/** The outbound message objects that all three clients build the same way,
    member by member in the order the source writes them. */
module Messages {
  import opened Results
  import opened Json
  import opened Shapes

  function Strs(values: seq<string>): (r: seq<JsValue>)
    ensures |r| == |values|
    ensures forall i :: 0 <= i < |values| ==> r[i] == Str(values[i])
    decreases |values|
  {
    if values == [] then [] else [Str(values[0])] + Strs(values[1..])
  }

  /** The members every createState message starts with. */
  function CreateStateBase(id: string, desc: string, defaultValue: string): seq<Member> {
    [Member("type", Str("createState")), Member("id", Str(id)), Member("desc", Str(desc)),
     Member("defaultValue", Str(defaultValue))]
  }

  function RemoveStateMessage(id: string): JsValue {
    Obj([Member("type", Str("removeState")), Member("id", Str(id))])
  }

  function ChoiceUpdateMessage(id: string, value: seq<string>): JsValue {
    Obj([Member("type", Str("choiceUpdate")), Member("id", Str(id)), Member("value", Arr(Strs(value)))])
  }

  function ChoiceUpdateSpecificMessage(id: string, value: seq<string>, instanceId: string): JsValue {
    Obj([Member("type", Str("choiceUpdate")), Member("id", Str(id)), Member("instanceId", Str(instanceId)),
         Member("value", Arr(Strs(value)))])
  }

  function SettingUpdateMessage(name: string, value: string): JsValue {
    Obj([Member("type", Str("settingUpdate")), Member("name", Str(name)), Member("value", Str(value))])
  }

  function StateUpdateMessage(id: string, value: string): JsValue {
    Obj([Member("type", Str("stateUpdate")), Member("id", Str(id)), Member("value", Str(value))])
  }

  /** The array `stateUpdateMany` builds: one stateUpdate per entry, in order. */
  function StateUpdateMessages(states: seq<StateUpdate>): (r: seq<JsValue>)
    ensures |r| == |states|
    ensures forall i :: 0 <= i < |states| ==> r[i] == StateUpdateMessage(states[i].id, states[i].value)
    decreases |states|
  {
    if states == [] then [] else [StateUpdateMessage(states[0].id, states[0].value)] + StateUpdateMessages(states[1..])
  }

  function UpdateActionDataMessage(actionInstanceId: string, data: seq<Member>): JsValue {
    Obj([Member("type", Str("updateActionData")), Member("instanceId", Str(actionInstanceId)), Member("data", Obj(data))])
  }

  function NotificationMessage(notificationId: string, title: string, msg: string, options: seq<JsValue>): JsValue {
    Obj([Member("type", Str("showNotification")), Member("notificationId", Str(notificationId)),
         Member("title", Str(title)), Member("msg", Str(msg)), Member("options", Arr(options))])
  }

  function PairMessage(pluginId: string): JsValue {
    Obj([Member("type", Str("pair")), Member("id", Str(pluginId))])
  }

  /** Whether an optional argument is a populated string (`!x` is false). */
  predicate Populated(x: Option<string>) {
    x.Some? && x.value != ""
  }
}
