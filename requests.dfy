/**
 * The JSON bodies the MiR wrapper sends, and the record of one issued vendor call.
 * Building a body is plain record construction; what the vendor needs is that it
 * can read back every argument from it, which the `…Of` readers and their
 * round-trip contracts state.
 */
module Requests {
  import opened Wrappers

  /** One `{input_name, value}` binding of a mission-queue entry. */
  datatype QueueParam = QueueParam(inputName: string, value: string)

  /** Body of POST `mission_queue`. */
  datatype QueueBody = QueueBody(missionId: string, parameters: seq<QueueParam>)

  /** Body of POST `missions`. */
  datatype MissionBody = MissionBody(name: string, groupId: string, hidden: bool)

  /** Body of POST `positions`. */
  datatype PositionBody = PositionBody(name: string, posX: real, posY: real, orientation: real, typeId: int, mapId: string)

  /** A JSON scalar as it appears in an action parameter. */
  datatype JsonValue = JString(s: string) | JNumber(n: real)

  /** One `{id, input_name, value}` parameter of a mission action; `input_name: null` is `None`. */
  datatype ActionParam = ActionParam(id: string, inputName: Option<string>, value: JsonValue)

  /** Body of POST `missions/<guid>/actions`. */
  datatype ActionBody = ActionBody(actionType: string, parameters: seq<ActionParam>, priority: int)

  /** The `parameters` object handed to `postMissionAction`. */
  datatype MoveParams = MoveParams(actionType: string, positionInputName: string, positionValue: string,
                                   retries: real, distanceThreshold: real)

  /** Priority of every action the wrapper creates. */
  const ActionPriority: int := 1

  /** The queue body `postMissionQueue` builds: one mission, exactly one parameter binding. */
  function QueueRequest(missionId: string, inputName: string, inputValue: string): (body: QueueBody)
    ensures QueueBindingOf(body) == Some((missionId, inputName, inputValue))
  {
    QueueBody(missionId, [QueueParam(inputName, inputValue)])
  }

  /** How the vendor reads a queue body that binds exactly one parameter. */
  function QueueBindingOf(body: QueueBody): Option<(string, string, string)>
  {
    if |body.parameters| == 1
    then Some((body.missionId, body.parameters[0].inputName, body.parameters[0].value))
    else None
  }

  /**
   * The action body `postMissionAction` builds: the action type, then exactly three
   * parameters in the order position, retries, distance_threshold, of which only
   * the first names an input; priority 1.
   */
  function MoveActionRequest(p: MoveParams): (body: ActionBody)
    ensures body.priority == ActionPriority
    ensures |body.parameters| == 3
    ensures body.parameters[0].id == "position" && body.parameters[0].inputName == Some(p.positionInputName)
    ensures body.parameters[1].id == "retries" && body.parameters[1].inputName == None
    ensures body.parameters[2].id == "distance_threshold" && body.parameters[2].inputName == None
    ensures MoveParamsOf(body) == Some(p)
  {
    ActionBody(
      p.actionType,
      [ ActionParam("position", Some(p.positionInputName), JString(p.positionValue)),
        ActionParam("retries", None, JNumber(p.retries)),
        ActionParam("distance_threshold", None, JNumber(p.distanceThreshold)) ],
      ActionPriority)
  }

  /** How the vendor reads a move action back into its arguments. */
  function MoveParamsOf(body: ActionBody): Option<MoveParams>
  {
    if |body.parameters| != 3 then None
    else
      var pos, retries, threshold := body.parameters[0], body.parameters[1], body.parameters[2];
      if pos.id == "position" && pos.inputName.Some? && pos.value.JString?
         && retries.id == "retries" && retries.value.JNumber?
         && threshold.id == "distance_threshold" && threshold.value.JNumber?
      then Some(MoveParams(body.actionType, pos.inputName.value, pos.value.s, retries.value.n, threshold.value.n))
      else None
  }

  /**
   * One vendor call as it was issued: which endpoint, the `Authorization` token,
   * and its path argument or body.
   */
  datatype Call =
    | GetPositions(auth: string)
    | GetMaps(auth: string)
    | GetMissions(auth: string)
    | PostMissionQueue(auth: string, entry: QueueBody)
    | PostMission(auth: string, mission: MissionBody)
    | PostPosition(auth: string, position: PositionBody)
    | PostMissionAction(auth: string, missionGuid: string, action: ActionBody)
    | DeleteMission(auth: string, missionGuid: string)
}
