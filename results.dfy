/** Error values for every `throw new Error(...)` of the client, and the
    Option / Result / Outcome wrappers the model returns instead of throwing. */
module Results {

  datatype Option<+T> = None | Some(value: T)

  /** One constructor per distinct error the client classes throw. */
  datatype Error =
    | DuplicateState(id: string)        // "createState: Custom state of <id> already created"
    | UnknownState(id: string)          // "removeState: Custom state of <id> never created ..."
    | CreateManyEmpty                   // "createStateMany: states contains no data"
    | StateUpdateManyEmpty              // "stateUpdateMany: states contains no data"
    | ChoiceValueEmpty                  // "choiceUpdate: value is an empty array"
    | ChoiceSpecificValueEmpty          // "choiceUpdateSpecific: value does not contain data ..."
    | InstanceIdMissing                 // "choiceUpdateSpecific: instanceId is not populated"
    | OutOfRange(value: int)            // "connectorUpdate: value has to be between 0 and 100 <v>"
    | ConnectorsEmpty                   // "connectorManyUpdate: connectors contains no data"
    | ActionDataMissing                 // "updateActionData: required data is missing ..."
    | UnsupportedActionType             // "updateActionData: only number types are supported"
    | NotificationOptionsMissing        // "sendNotification: at least one option is required"
    | EmptyBatch                        // "sendArray: dataArray has no length"
    | TypeError                         // a property read on undefined (`undefined.toString()`)

  datatype Result<+T> = Ok(value: T) | Err(error: Error)

  /** What a method that returns nothing in the source yields: it either
      returns normally or throws. */
  datatype Outcome = Pass | Fail(error: Error)
}
