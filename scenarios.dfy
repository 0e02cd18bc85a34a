/**
 * Concrete runs of the two workflows against a fresh vendor, showing what a
 * caller can conclude from their contracts alone.
 */
module Scenarios {
  import opened Wrappers
  import opened Auth
  import opened Directory
  import opened Requests
  import opened Vendor
  import opened Workflows

  /** The position created by the call at the end of the MiR wrapper module. */
  const TestPosition: PositionSpec := PositionSpec(10.0, 10.0, 0.0, "Test Position", 0)

  /** What a `moveToPosition` run whose map resolves to m1 leaves behind, stated on its values. */
  lemma TeamAreaEnd(token: string, missionGuid: string, outcome: Outcome, calls: seq<Call>, replies: seq<bool>, queued: seq<QueueBody>)
    requires IsPositionOutcome(outcome) && outcome != Aborted(ResolveMap)
    requires calls == PositionCalls(token, TestPosition, "m1", missionGuid)[..PositionCallsIssued(outcome)]
    requires replies == PositionReplies(outcome)
    requires queued == if PositionCallsIssued(outcome) == 6 then [QueueRequest(missionGuid, PositionParam, FixedPositionGuid)] else []
    ensures 1 <= |calls| <= 6 && |replies| == |calls|
    ensures AllReplied(replies) ==>
              |calls| == 6 && calls[3].PostMissionAction?
              && queued == [QueueBody(calls[3].missionGuid, [QueueParam("askVar", FixedPositionGuid)])]
    ensures calls[0] == Call.GetMaps(token)
    ensures |calls| >= 2 ==> calls[1] == Call.PostPosition(token, PositionBody("Test Position", 10.0, 10.0, 0.0, 0, "m1"))
    ensures |calls| == 6 ==> calls[3].PostMissionAction? && calls[5] == Call.DeleteMission(token, calls[3].missionGuid)
  {
    PositionAllReplied(outcome);
    PositionRepliesShape(outcome);
    RepliesTellStop(PositionCallsIssued(outcome), TransportStop(outcome));
  }

  /**
   * Maps ["Elsewhere" -> m0, "Team Area" -> m1]: the position is created on m1, and
   * the action, queue entry and delete all name the mission the vendor created.
   * When every request gets a reply, all six are issued and the mission is enqueued.
   */
  method TeamAreaRun(crypto: Crypto, creds: Credentials) returns (calls: seq<Call>, replies: seq<bool>, queued: seq<QueueBody>)
    ensures 1 <= |calls| <= 6 && |replies| == |calls|
    ensures AllReplied(replies) ==>
              |calls| == 6 && calls[3].PostMissionAction?
              && queued == [QueueBody(calls[3].missionGuid, [QueueParam("askVar", FixedPositionGuid)])]
    ensures calls[0] == Call.GetMaps(Token(crypto, creds))
    ensures |calls| >= 2 ==> calls[1] == Call.PostPosition(Token(crypto, creds),
                                           PositionBody("Test Position", 10.0, 10.0, 0.0, 0, "m1"))
    ensures |calls| == 6 ==> calls[3].PostMissionAction? && calls[5] == Call.DeleteMission(Token(crypto, creds), calls[3].missionGuid)
  {
    var maps := [Entry("Elsewhere", "m0"), Entry("Team Area", "m1")];
    var v := new MirVendor([], maps, []);
    ResolveLastMatchWins(maps, "Team Area", MapNotFound, 1);
    var outcome, positionGuid, missionGuid := MoveToPosition(v, crypto, creds, "Mir", TestPosition, "Team Area", "mirconst-guid-0000-0005-users0000000");
    calls, replies, queued := v.log, v.answered, v.queue;
    TeamAreaEnd(Token(crypto, creds), missionGuid, outcome, calls, replies, queued);
  }

  /**
   * Maps ["Team Area" -> m1]: the only match is at index 0, so the name does not
   * resolve, and the position is still created, with map_id "Map Guid not found".
   */
  method TeamAreaFirstRun(crypto: Crypto, creds: Credentials) returns (calls: seq<Call>)
    ensures 1 <= |calls| <= 6
    ensures |calls| >= 2 ==> calls[1].PostPosition? && calls[1].position.mapId == "Map Guid not found"
  {
    var maps := [Entry("Team Area", "m1")];
    var v := new MirVendor([], maps, []);
    UnresolvedMapPassesCheck(maps, "Team Area");
    var outcome, positionGuid, missionGuid := MoveToPosition(v, crypto, creds, "Mir", TestPosition, "Team Area", "mirconst-guid-0000-0005-users0000000");
    calls := v.log;
  }

  /** A bin name that matches no position: only the position list is fetched, nothing is enqueued. */
  method UnknownBinRun(crypto: Crypto, creds: Credentials) returns (calls: seq<Call>, queued: seq<QueueBody>)
    ensures calls == [Call.GetPositions(Token(crypto, creds))]
    ensures queued == []
  {
    var positions := [Entry("A", "g1"), Entry("B", "g2")];
    var v := new MirVendor(positions, [], [Entry("Navigate to warehouse bin", "n1")]);
    ResolveNotFound(positions, "C", PositionNotFound);
    var outcome := MoveToBin(v, crypto, creds, "C", None, "Mir");
    calls, queued := v.log, v.queue;
  }

  /** What a `moveToBin` run in which both names resolve leaves behind, stated on its values. */
  lemma KnownBinEnd(token: string, outcome: Outcome, calls: seq<Call>, replies: seq<bool>, queued: seq<QueueBody>)
    requires IsBinOutcome(outcome) && outcome != Aborted(ResolvePosition) && outcome != Aborted(ResolveMission)
    requires calls == BinCalls(token, "g2", "n1")[..BinCallsIssued(outcome)]
    requires replies == BinReplies(outcome)
    requires queued == if outcome.Completed? then [QueueRequest("n1", PositionParam, "g2")] else []
    ensures 1 <= |calls| <= 3 && |replies| == |calls| && calls[0] == Call.GetPositions(token)
    ensures AllReplied(replies) ==> |calls| == 3 && queued == [QueueBody("n1", [QueueParam("askVar", "g2")])]
    ensures |calls| >= 2 ==> calls[1] == Call.GetMissions(token)
    ensures |calls| == 3 ==> calls[2] == Call.PostMissionQueue(token, QueueBody("n1", [QueueParam("askVar", "g2")]))
    ensures queued == [] || queued == [QueueBody("n1", [QueueParam("askVar", "g2")])]
  {
    BinAllReplied(outcome);
  }

  /**
   * Both names resolve: the run either stops on a transport error or enqueues mission
   * n1 with askVar bound to g2, and when every request gets a reply it does the latter.
   */
  method KnownBinRun(crypto: Crypto, creds: Credentials) returns (calls: seq<Call>, replies: seq<bool>, queued: seq<QueueBody>)
    ensures 1 <= |calls| <= 3 && |replies| == |calls| && calls[0] == Call.GetPositions(Token(crypto, creds))
    ensures AllReplied(replies) ==>
              |calls| == 3 && queued == [QueueBody("n1", [QueueParam("askVar", "g2")])]
    ensures |calls| >= 2 ==> calls[1] == Call.GetMissions(Token(crypto, creds))
    ensures |calls| == 3 ==> calls[2] == Call.PostMissionQueue(Token(crypto, creds), QueueBody("n1", [QueueParam("askVar", "g2")]))
    ensures queued == [] || queued == [QueueBody("n1", [QueueParam("askVar", "g2")])]
  {
    var positions := [Entry("A", "g1"), Entry("B", "g2")];
    var missions := [Entry("Other", "n0"), Entry("Navigate to warehouse bin", "n1")];
    var v := new MirVendor(positions, [], missions);
    ResolveLastMatchWins(positions, "B", PositionNotFound, 1);
    ResolveLastMatchWins(missions, "Navigate to warehouse bin", MissionNotFound, 1);
    var outcome := MoveToBin(v, crypto, creds, "B", None, "Mir");
    calls, replies, queued := v.log, v.answered, v.queue;
    KnownBinEnd(Token(crypto, creds), outcome, calls, replies, queued);
  }
}
