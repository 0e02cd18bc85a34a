/**
 * The two user-facing operations of the MiR wrapper, `moveToBin` and
 * `moveToPosition`, as sequential methods over a `MirVendor`.
 *
 * Each step waits for the previous one; a transport error, or a lookup that comes
 * back with its not-found sentinel where the code checks for it, ends the workflow
 * (the source logs the error and returns from its callback). Nothing done before
 * the failure is undone. The user name and password come from the project
 * settings in the source; here they are the `creds` parameter.
 */
module Workflows {
  import opened Wrappers
  import opened Auth
  import opened Directory
  import opened Requests
  import opened Vendor

  /** Mission used by `moveToBin` when no mission name is given. */
  const DefaultBinMission: string := "Navigate to warehouse bin"
  /** The mission input that receives the target position. */
  const PositionParam: string := "askVar"
  const AutoMissionName: string := "Auto-Generated Mission"
  /** `moveToPosition` overwrites its group argument with this group. */
  const AutoMissionGroup: string := "mirconst-guid-0000-0011-missiongroup"
  /** The hard-coded position `moveToPosition` sends the robot to. */
  const FixedPositionGuid: string := "0de4ae9d-31fc-11e8-832d-94c691159cd4"
  /** The move action `moveToPosition` attaches: 10 retries, distance threshold 0.1. */
  const AutoMove: MoveParams := MoveParams("move", PositionParam, FixedPositionGuid, 10.0, 0.1)

  datatype Credentials = Credentials(username: string, password: string)

  /** The `position` argument of `moveToPosition`. */
  datatype PositionSpec = PositionSpec(x: real, y: real, orientation: real, name: string, typeId: int)

  /** The step at which a workflow stopped. */
  datatype Step =
    | ListPositions | ResolvePosition | ListMissions | ResolveMission
    | ListMaps | ResolveMap | CreatePosition | CreateMission | AddAction
    | Enqueue | Cleanup

  datatype Outcome = Completed | Aborted(at: Step)

  /** Whether the workflow stopped because its last request got a transport error rather than a reply. */
  predicate TransportStop(outcome: Outcome)
  {
    match outcome
    case Completed => false
    case Aborted(at) => !(at == ResolvePosition || at == ResolveMission || at == ResolveMap)
  }

  /** `n` requests that all got a reply. */
  function AllAnswered(n: nat): seq<bool>
  {
    if n == 0 then [] else AllAnswered(n - 1) + [true]
  }

  /** The replies of `issued` requests of which every one but the last got a reply, and the last failed exactly when `lastFailed`. */
  function Replies(issued: nat, lastFailed: bool): seq<bool>
  {
    if issued == 0 then [] else AllAnswered(issued - 1) + [!lastFailed]
  }

  /** The replies say why a run stopped: a last request without reply exactly when it stopped on a transport error. */
  lemma RepliesTellStop(issued: nat, lastFailed: bool)
    requires issued >= 1
    ensures |Replies(issued, lastFailed)| == issued
    ensures (forall i :: 0 <= i < issued - 1 ==> Replies(issued, lastFailed)[i])
    ensures Replies(issued, lastFailed)[issued - 1] == !lastFailed
  {
    var front := AllAnswered(issued - 1);
    AllAnsweredAll(issued - 1);
    assert forall i :: 0 <= i < issued - 1 ==> Replies(issued, lastFailed)[i] == front[i];
  }

  /** Every request got a reply. */
  predicate AllReplied(replies: seq<bool>)
  {
    forall i :: 0 <= i < |replies| ==> replies[i]
  }

  /** The replies of a run: all answered exactly when it did not stop on a transport error. */
  lemma RepliesAllReplied(issued: nat, lastFailed: bool)
    requires issued >= 1
    ensures AllReplied(Replies(issued, lastFailed)) <==> !lastFailed
  {
    RepliesTellStop(issued, lastFailed);
  }

  lemma {:induction false} AllAnsweredAll(n: nat)
    ensures |AllAnswered(n)| == n && forall i :: 0 <= i < n ==> AllAnswered(n)[i]
  {
    if n > 0 {
      AllAnsweredAll(n - 1);
    }
  }

  function Token(crypto: Crypto, creds: Credentials): string
  {
    ComputeHash(crypto, creds.username, creds.password)
  }

  // ---------------------------------------------------------------- moveToBin

  /** An undefined mission name falls back to the default; any given name is used as is. */
  function BinMissionName(missionName: Option<string>): (name: string)
    ensures missionName.None? ==> name == DefaultBinMission
    ensures missionName.Some? ==> name == missionName.value
  {
    match missionName
    case None => DefaultBinMission
    case Some(n) => n
  }

  /** Every call `moveToBin` can issue, in the order it issues them. */
  function BinCalls(token: string, positionGuid: string, missionGuid: string): seq<Call>
  {
    [ Call.GetPositions(token),
      Call.GetMissions(token),
      Call.PostMissionQueue(token, QueueRequest(missionGuid, PositionParam, positionGuid)) ]
  }

  /** The outcomes `moveToBin` can end with. */
  predicate IsBinOutcome(outcome: Outcome)
  {
    match outcome
    case Completed => true
    case Aborted(at) => at == ListPositions || at == ResolvePosition || at == ListMissions || at == ResolveMission || at == Enqueue
  }

  /** How many calls of `BinCalls` were issued before `moveToBin` ended with `outcome`. */
  function BinCallsIssued(outcome: Outcome): nat
  {
    match outcome
    case Completed => 3
    case Aborted(at) =>
      if at == Enqueue then 3
      else if at == ListMissions || at == ResolveMission then 2
      else 1
  }

  /** The replies `moveToBin`'s requests got, for each way it can end. */
  function BinReplies(outcome: Outcome): seq<bool>
  {
    match outcome
    case Completed => [true, true, true]
    case Aborted(at) =>
      if at == ListPositions then [false]
      else if at == ResolvePosition then [true]
      else if at == ListMissions then [true, false]
      else if at == ResolveMission then [true, true]
      else [true, true, false]
  }

  /** Every request of `moveToBin` but the last got a reply, and the last failed exactly on a transport stop. */
  lemma BinRepliesShape(outcome: Outcome)
    requires IsBinOutcome(outcome)
    ensures BinReplies(outcome) == Replies(BinCallsIssued(outcome), TransportStop(outcome))
  {
    assert AllAnswered(2) == [true, true];
  }

  /** Every request of `moveToBin` got a reply exactly when it did not stop on a transport error. */
  lemma BinAllReplied(outcome: Outcome)
    requires IsBinOutcome(outcome)
    ensures AllReplied(BinReplies(outcome)) <==> !TransportStop(outcome)
  {
    BinRepliesShape(outcome);
    RepliesAllReplied(BinCallsIssued(outcome), TransportStop(outcome));
  }

  /**
   * `moveToBin(BinId, MissionName, RobotName)`: resolve the bin's position, then the
   * mission, then enqueue the mission with the position bound to `askVar`.
   * `robotName` is accepted and ignored, as in the source.
   */
  method MoveToBin(v: MirVendor, crypto: Crypto, creds: Credentials,
                   binId: string, missionName: Option<string>, robotName: string)
    returns (outcome: Outcome)
    modifies v`log, v`answered, v`queue
    ensures IsBinOutcome(outcome)
    // every request but the last got a reply; the last failed exactly on a transport stop
    ensures v.answered == old(v.answered) + BinReplies(outcome)
    // exactly a prefix of the plan was issued, nothing else
    ensures v.log == old(v.log) + BinCalls(Token(crypto, creds), Resolve(old(v.positions), binId, PositionNotFound),
                                           Resolve(old(v.missions), BinMissionName(missionName), MissionNotFound))[..BinCallsIssued(outcome)]
    // a failed lookup stops the workflow before any later call
    ensures Resolve(old(v.positions), binId, PositionNotFound) == PositionNotFound ==> BinCallsIssued(outcome) == 1
    ensures Resolve(old(v.missions), BinMissionName(missionName), MissionNotFound) == MissionNotFound ==> BinCallsIssued(outcome) <= 2
    ensures outcome == Aborted(ResolvePosition) ==> Resolve(old(v.positions), binId, PositionNotFound) == PositionNotFound
    ensures outcome == Aborted(ResolveMission) ==> Resolve(old(v.missions), BinMissionName(missionName), MissionNotFound) == MissionNotFound
    // the queue grows by the one entry exactly when the workflow completes
    ensures v.queue == if outcome.Completed?
                       then old(v.queue) + [QueueRequest(Resolve(old(v.missions), BinMissionName(missionName), MissionNotFound),
                                                         PositionParam, Resolve(old(v.positions), binId, PositionNotFound))]
                       else old(v.queue)
  {
    var name := BinMissionName(missionName);
    var paramName := PositionParam;
    var token := Token(crypto, creds);

    var positions := v.GetPositions(token);
    assert v.queue == old(v.queue);
    if positions.TransportError? {
      return Aborted(ListPositions);
    }
    assert v.answered == old(v.answered) + [true];
    var positionGuid := PositionGuidFromBody(positions.value, binId);
    ghost var plan := BinCalls(token, positionGuid, Resolve(old(v.missions), name, MissionNotFound));
    assert v.log == old(v.log) + plan[..1];
    if positionGuid == PositionNotFound {
      return Aborted(ResolvePosition);
    }

    var missions := v.GetMissions(token);
    assert v.log == old(v.log) + plan[..2];
    if missions.TransportError? {
      return Aborted(ListMissions);
    }
    assert v.answered == old(v.answered) + [true, true];
    var missionGuid := MissionGuidFromBody(missions.value, name);
    if missionGuid == MissionNotFound {
      return Aborted(ResolveMission);
    }

    var ok := v.PostMissionQueue(token, missionGuid, paramName, positionGuid);
    assert v.log == old(v.log) + plan;
    assert v.answered == old(v.answered) + [true, true, ok];
    if !ok {
      return Aborted(Enqueue);
    }
    outcome := Completed;
  }

  // ----------------------------------------------- the map check of moveToPosition

  /**
   * A map name that resolves to nothing comes back as the MAP sentinel, which the
   * map check (written against the mission sentinel) lets through.
   */
  lemma {:induction false} UnresolvedMapPassesCheck(maps: seq<Entry>, mapName: string)
    requires forall j :: 0 < j < |maps| ==> maps[j].name != mapName
    ensures Resolve(maps, mapName, MapNotFound) == MapNotFound
    ensures Resolve(maps, mapName, MapNotFound) != MissionNotFound
  {
    ResolveNotFound(maps, mapName, MapNotFound);
  }

  /** The map check fires only when some map past index 0 has the guid "Mission Guid not found". */
  lemma {:induction false} MapCheckNeedsSentinelGuid(maps: seq<Entry>, mapName: string)
    requires Resolve(maps, mapName, MapNotFound) == MissionNotFound
    ensures exists i :: IsLastMatch(maps, mapName, i) && i > 0 && maps[i].guid == MissionNotFound
  {
    ResolveSound(maps, mapName, MapNotFound);
  }

  // ----------------------------------------------------------- moveToPosition

  /** The body of the position `moveToPosition` creates, on the map guid it resolved. */
  function NewPositionBody(position: PositionSpec, mapGuid: string): PositionBody
  {
    PositionBody(position.name, position.x, position.y, position.orientation, position.typeId, mapGuid)
  }

  /**
   * The calls of the one-off mission's life, in order; `missionGuid` is the guid
   * the vendor assigned to the mission created by the first of them.
   */
  function MissionCalls(token: string, missionGuid: string): seq<Call>
  {
    [ Call.PostMission(token, MissionBody(AutoMissionName, AutoMissionGroup, false)),
      Call.PostMissionAction(token, missionGuid, MoveActionRequest(AutoMove)),
      Call.PostMissionQueue(token, QueueRequest(missionGuid, PositionParam, FixedPositionGuid)),
      Call.DeleteMission(token, missionGuid) ]
  }

  /** The calls that create the new position: list the maps, then POST the position. */
  function PlaceCalls(token: string, position: PositionSpec, mapGuid: string): seq<Call>
  {
    [Call.GetMaps(token), Call.PostPosition(token, NewPositionBody(position, mapGuid))]
  }

  /** Every call `moveToPosition` can issue, in order. */
  function PositionCalls(token: string, position: PositionSpec, mapGuid: string, missionGuid: string): seq<Call>
  {
    PlaceCalls(token, position, mapGuid) + MissionCalls(token, missionGuid)
  }

  /** Cutting the plan of `moveToPosition` at `n` calls: the part from each phase. */
  lemma PositionCallsPrefix(token: string, position: PositionSpec, mapGuid: string, missionGuid: string, n: nat)
    requires n <= 6
    ensures n <= 2 ==> PositionCalls(token, position, mapGuid, missionGuid)[..n] == PlaceCalls(token, position, mapGuid)[..n]
    ensures n >= 2 ==> PositionCalls(token, position, mapGuid, missionGuid)[..n]
                       == PlaceCalls(token, position, mapGuid) + MissionCalls(token, missionGuid)[..n - 2]
    ensures PlaceCalls(token, position, mapGuid)[..2] == PlaceCalls(token, position, mapGuid)
  {
    var place, mission := PlaceCalls(token, position, mapGuid), MissionCalls(token, missionGuid);
    if n <= 2 {
      assert (place + mission)[..n] == place[..n];
    } else {
      assert (place + mission)[..n] == place + mission[..n - 2];
    }
  }

  /** The outcomes of the one-off mission's life. */
  predicate IsMissionOutcome(outcome: Outcome)
  {
    match outcome
    case Completed => true
    case Aborted(at) => at == CreateMission || at == AddAction || at == Enqueue || at == Cleanup
  }

  /** The outcomes `moveToPosition` can end with. */
  predicate IsPositionOutcome(outcome: Outcome)
  {
    match outcome
    case Completed => true
    case Aborted(at) => at == ListMaps || at == ResolveMap || at == CreatePosition || IsMissionOutcome(outcome)
  }

  /** How many calls of `PositionCalls` were issued before `moveToPosition` ended with `outcome`. */
  function PositionCallsIssued(outcome: Outcome): nat
  {
    match outcome
    case Completed => 6
    case Aborted(at) =>
      if at == Cleanup then 6
      else if at == Enqueue then 5
      else if at == AddAction then 4
      else if at == CreateMission then 3
      else if at == CreatePosition then 2
      else 1
  }

  /** `getMissionGuid`: the guid field of postMission's reply. */
  function GetMissionGuid(body: Entry): string
  {
    body.guid
  }

  /** The replies of the one-off mission's requests, for each way it can end. */
  function MissionReplies(outcome: Outcome): seq<bool>
  {
    match outcome
    case Completed => [true, true, true, true]
    case Aborted(at) =>
      if at == CreateMission then [false]
      else if at == AddAction then [true, false]
      else if at == Enqueue then [true, true, false]
      else [true, true, true, false]
  }

  /** The replies of the position-creating requests, for each way that part can end. */
  function PlaceReplies(outcome: Outcome): seq<bool>
  {
    match outcome
    case Completed => [true, true]
    case Aborted(at) =>
      if at == ListMaps then [false]
      else if at == ResolveMap then [true]
      else [true, false]
  }

  /** The replies `moveToPosition`'s requests got: both position requests answered before the mission's life starts. */
  function PositionReplies(outcome: Outcome): seq<bool>
  {
    if outcome == Aborted(ListMaps) || outcome == Aborted(ResolveMap) || outcome == Aborted(CreatePosition)
    then PlaceReplies(outcome)
    else [true, true] + MissionReplies(outcome)
  }

  /** Every request of `moveToPosition` but the last got a reply, and the last failed exactly on a transport stop. */
  lemma PositionRepliesShape(outcome: Outcome)
    requires IsPositionOutcome(outcome)
    ensures PositionReplies(outcome) == Replies(PositionCallsIssued(outcome), TransportStop(outcome))
  {
    match outcome
    case Completed =>
      assert AllAnswered(5) == [true, true, true, true, true];
    case Aborted(at) =>
      if at == CreatePosition {
        assert AllAnswered(1) == [true];
      } else if at == CreateMission {
        assert AllAnswered(2) == [true, true];
      } else if at == AddAction {
        assert AllAnswered(3) == [true, true, true];
      } else if at == Enqueue {
        assert AllAnswered(4) == [true, true, true, true];
      } else if at == Cleanup {
        assert AllAnswered(5) == [true, true, true, true, true];
      }
  }

  /** Every request of `moveToPosition` got a reply exactly when it did not stop on a transport error. */
  lemma PositionAllReplied(outcome: Outcome)
    requires IsPositionOutcome(outcome)
    ensures AllReplied(PositionReplies(outcome)) <==> !TransportStop(outcome)
  {
    PositionRepliesShape(outcome);
    RepliesAllReplied(PositionCallsIssued(outcome), TransportStop(outcome));
  }

  /**
   * The inner part of `moveToPosition`, once the position exists: create the
   * mission "Auto-Generated Mission" (not hidden, in the fixed group), attach the
   * move action to the fixed position, enqueue the mission and delete it. Every
   * later call uses the guid from postMission's reply.
   */
  method RunOneOffMission(v: MirVendor, token: string) returns (outcome: Outcome, ghost missionGuid: string)
    modifies v`log, v`answered, v`missions, v`actions, v`queue
    ensures IsMissionOutcome(outcome)
    ensures PositionCallsIssued(outcome) >= 3
    ensures v.answered == old(v.answered) + MissionReplies(outcome)
    ensures v.log == old(v.log) + MissionCalls(token, missionGuid)[..PositionCallsIssued(outcome) - 2]
    ensures v.missions == (if outcome.Completed? then Without(old(v.missions) + [Entry(AutoMissionName, missionGuid)], missionGuid)
                           else if PositionCallsIssued(outcome) >= 4 then old(v.missions) + [Entry(AutoMissionName, missionGuid)]
                           else old(v.missions))
    ensures v.actions == (if PositionCallsIssued(outcome) >= 5
                          then old(v.actions) + [Attached(missionGuid, MoveActionRequest(AutoMove))]
                          else old(v.actions))
    ensures v.queue == (if PositionCallsIssued(outcome) == 6
                        then old(v.queue) + [QueueRequest(missionGuid, PositionParam, FixedPositionGuid)]
                        else old(v.queue))
  {
    ghost var plan: seq<Call>;
    missionGuid := "";
    var reply := v.PostMission(token, AutoMissionName, AutoMissionGroup, false);
    if reply.TransportError? {
      plan := MissionCalls(token, missionGuid);
      assert v.log == old(v.log) + plan[..1];
      return Aborted(CreateMission), missionGuid;
    }
    var mission := GetMissionGuid(reply.value);
    missionGuid := mission;
    plan := MissionCalls(token, missionGuid);
    assert v.log == old(v.log) + plan[..1];

    assert v.answered == old(v.answered) + [true];
    var ok := v.PostMissionAction(token, mission, AutoMove);
    assert v.log == old(v.log) + plan[..2];
    assert v.answered == old(v.answered) + [true, ok];
    if !ok {
      return Aborted(AddAction), missionGuid;
    }
    ok := v.PostMissionQueue(token, mission, PositionParam, FixedPositionGuid);
    assert v.log == old(v.log) + plan[..3];
    assert v.answered == old(v.answered) + [true, true, ok];
    if !ok {
      return Aborted(Enqueue), missionGuid;
    }
    ok := v.DeleteMission(token, mission);
    assert v.log == old(v.log) + plan[..4];
    assert v.answered == old(v.answered) + [true, true, true, ok];
    if !ok {
      return Aborted(Cleanup), missionGuid;
    }
    outcome := Completed;
  }

  /** How many calls of `PlaceCalls` were issued; `Completed` means both. */
  function PlaceCallsIssued(outcome: Outcome): nat
  {
    if outcome == Aborted(ListMaps) || outcome == Aborted(ResolveMap) then 1 else 2
  }

  /**
   * The outer part of `moveToPosition`: list the maps, resolve the map name, and
   * create the position on the map guid found. `Completed` means the position
   * was created.
   */
  method PlacePosition(v: MirVendor, token: string, position: PositionSpec, mapName: string)
    returns (outcome: Outcome, ghost positionGuid: string)
    modifies v`log, v`answered, v`positions
    ensures outcome.Completed? || outcome == Aborted(ListMaps) || outcome == Aborted(ResolveMap) || outcome == Aborted(CreatePosition)
    ensures v.answered == old(v.answered) + PlaceReplies(outcome)
    ensures v.log == old(v.log) + PlaceCalls(token, position, Resolve(old(v.maps), mapName, MapNotFound))[..PlaceCallsIssued(outcome)]
    ensures outcome == Aborted(ResolveMap) ==> Resolve(old(v.maps), mapName, MapNotFound) == MissionNotFound
    ensures Resolve(old(v.maps), mapName, MapNotFound) == MissionNotFound ==> PlaceCallsIssued(outcome) == 1
    ensures v.positions == if outcome.Completed? then old(v.positions) + [Entry(position.name, positionGuid)] else old(v.positions)
  {
    positionGuid := "";
    var maps := v.GetMaps(token);
    if maps.TransportError? {
      return Aborted(ListMaps), positionGuid;
    }
    var mapGuid := MapGuidFromBody(maps.value, mapName);
    if mapGuid == MissionNotFound {
      return Aborted(ResolveMap), positionGuid;
    }

    var newPosition := v.PostPosition(token, mapGuid, position.x, position.y, position.orientation,
                                      position.name, position.typeId);
    if newPosition.TransportError? {
      return Aborted(CreatePosition), positionGuid;
    }
    positionGuid := newPosition.value.guid;
    outcome := Completed;
  }

  /** After a completed placement, the mission's calls and replies continue `moveToPosition`'s plan. */
  lemma JoinPhases(token: string, position: PositionSpec, mapGuid: string, missionGuid: string, outcome: Outcome,
                   log0: seq<Call>, answered0: seq<bool>, log: seq<Call>, answered: seq<bool>)
    requires IsMissionOutcome(outcome) && PositionCallsIssued(outcome) >= 3
    requires log == log0 + PlaceCalls(token, position, mapGuid) + MissionCalls(token, missionGuid)[..PositionCallsIssued(outcome) - 2]
    requires answered == answered0 + [true, true] + MissionReplies(outcome)
    ensures log == log0 + PositionCalls(token, position, mapGuid, missionGuid)[..PositionCallsIssued(outcome)]
    ensures answered == answered0 + PositionReplies(outcome)
  {
    PositionCallsPrefix(token, position, mapGuid, missionGuid, PositionCallsIssued(outcome));
    assert log == log0 + (PlaceCalls(token, position, mapGuid) + MissionCalls(token, missionGuid)[..PositionCallsIssued(outcome) - 2]);
    assert answered == answered0 + ([true, true] + MissionReplies(outcome));
  }

  /**
   * `moveToPosition(robotName, position, MapName, groupMissionName)`: create a
   * position on the named map, then run the one-off mission.
   *
   * The map check compares against the MISSION sentinel, so a map name that does
   * not resolve is passed on as `map_id: "Map Guid not found"`; the workflow stops
   * at that step only when a map's guid is literally "Mission Guid not found" (the
   * source then throws a ReferenceError on an undeclared name). On a transport
   * error of postMission the source does not return but throws a TypeError when it
   * reads the guid of the missing body; both stop the workflow, as here.
   * `robotName` is ignored and `groupMissionName` is overwritten, as in the source.
   * The ghost results name the guids the vendor assigned to the created position
   * and mission.
   */
  method MoveToPosition(v: MirVendor, crypto: Crypto, creds: Credentials,
                        robotName: string, position: PositionSpec, mapName: string, groupMissionName: string)
    returns (outcome: Outcome, ghost positionGuid: string, ghost missionGuid: string)
    modifies v`log, v`answered, v`positions, v`missions, v`actions, v`queue
    ensures IsPositionOutcome(outcome)
    // every request but the last got a reply; the last failed exactly on a transport stop
    ensures v.answered == old(v.answered) + PositionReplies(outcome)
    // exactly a prefix of the plan was issued, nothing else
    ensures v.log == old(v.log) + PositionCalls(Token(crypto, creds), position, Resolve(old(v.maps), mapName, MapNotFound),
                                                missionGuid)[..PositionCallsIssued(outcome)]
    // only a map guid equal to the mission sentinel stops the workflow at the map check
    ensures outcome == Aborted(ResolveMap) ==> Resolve(old(v.maps), mapName, MapNotFound) == MissionNotFound
    ensures Resolve(old(v.maps), mapName, MapNotFound) == MissionNotFound ==> PositionCallsIssued(outcome) == 1
    // vendor state: what each successful step created, and nothing else
    ensures v.positions == (if PositionCallsIssued(outcome) >= 3 then old(v.positions) + [Entry(position.name, positionGuid)]
                            else old(v.positions))
    ensures v.missions == (if outcome.Completed? then Without(old(v.missions) + [Entry(AutoMissionName, missionGuid)], missionGuid)
                           else if PositionCallsIssued(outcome) >= 4 then old(v.missions) + [Entry(AutoMissionName, missionGuid)]
                           else old(v.missions))
    ensures v.actions == (if PositionCallsIssued(outcome) >= 5
                          then old(v.actions) + [Attached(missionGuid, MoveActionRequest(AutoMove))]
                          else old(v.actions))
    ensures v.queue == (if PositionCallsIssued(outcome) == 6
                        then old(v.queue) + [QueueRequest(missionGuid, PositionParam, FixedPositionGuid)]
                        else old(v.queue))
  {
    var token := Token(crypto, creds);
    missionGuid := "";
    ghost var mapGuid := Resolve(old(v.maps), mapName, MapNotFound);
    outcome, positionGuid := PlacePosition(v, token, position, mapName);
    if !outcome.Completed? {
      assert PositionCallsIssued(outcome) == PlaceCallsIssued(outcome) <= 2;
      assert PositionReplies(outcome) == PlaceReplies(outcome);
      PositionCallsPrefix(token, position, mapGuid, missionGuid, PlaceCallsIssued(outcome));
      return outcome, positionGuid, missionGuid;
    }

    PositionCallsPrefix(token, position, mapGuid, missionGuid, 2);
    assert v.log == old(v.log) + PlaceCalls(token, position, mapGuid);
    assert v.answered == old(v.answered) + [true, true];
    ghost var placed := v.positions;
    assert v.missions == old(v.missions) && v.actions == old(v.actions) && v.queue == old(v.queue);
    outcome, missionGuid := RunOneOffMission(v, token);
    assert v.positions == placed;
    JoinPhases(token, position, mapGuid, missionGuid, outcome, old(v.log), old(v.answered), v.log, v.answered);
  }
}
