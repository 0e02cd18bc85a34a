/**
 * The vendor as the MiR wrapper sees it: the remote collections, the mission queue,
 * the actions attached to missions, and a log of every request the wrapper issued.
 *
 * Each method is one of the wrapper's request functions (`getPositions`,
 * `postMissionQueue`, …): it builds the request body, issues the request (appends
 * it to `log`), and then either gets a reply or a transport error. Which of the two
 * happens is the network's choice and is left open (`ok :| true`); so is the guid
 * the vendor assigns to a record it creates. A request that fails changes no
 * vendor state.
 *
 * In the source, postMission, postPosition, postMissionAction and deleteMission
 * report a transport error through their callback and then call it a second time
 * as a success, because `callback(error, null)` is not followed by a return. That
 * is an artefact of the callback style: here every request has exactly one outcome.
 */
module Vendor {
  import opened Directory
  import opened Requests

  datatype Result<T> = Ok(value: T) | TransportError

  /** An action the vendor holds for the mission with guid `missionGuid`. */
  datatype Attached = Attached(missionGuid: string, action: ActionBody)

  /** The collection after DELETE of `guid`: the records with that guid are dropped, the others kept in order. */
  function Without(entries: seq<Entry>, guid: string): seq<Entry>
  {
    if entries == [] then []
    else if entries[0].guid == guid then Without(entries[1..], guid)
    else [entries[0]] + Without(entries[1..], guid)
  }

  /** Deleting removes exactly the records with that guid, and a guid no record has deletes nothing. */
  lemma {:induction false} WithoutSpec(entries: seq<Entry>, guid: string)
    ensures forall e :: e in Without(entries, guid) <==> e in entries && e.guid != guid
    ensures |Without(entries, guid)| <= |entries|
    ensures (forall e :: e in entries ==> e.guid != guid) ==> Without(entries, guid) == entries
  {
    if entries != [] {
      WithoutSpec(entries[1..], guid);
      assert entries == [entries[0]] + entries[1..];
    }
  }

  /** Deleting keeps the surviving records in their order: it works piecewise over a concatenation. */
  lemma {:induction false} WithoutAppend(a: seq<Entry>, b: seq<Entry>, guid: string)
    ensures Without(a + b, guid) == Without(a, guid) + Without(b, guid)
  {
    if a != [] {
      assert (a + b)[1..] == a[1..] + b;
      WithoutAppend(a[1..], b, guid);
    } else {
      assert a + b == b;
    }
  }

  class MirVendor {
    var positions: seq<Entry>
    var maps: seq<Entry>
    var missions: seq<Entry>
    var actions: seq<Attached>
    var queue: seq<QueueBody>
    /** Every request issued, in order, whatever its outcome. */
    var log: seq<Call>
    /** For each request in `log`, whether it got a reply (true) or a transport error (false). */
    var answered: seq<bool>

    constructor (positions: seq<Entry>, maps: seq<Entry>, missions: seq<Entry>)
      ensures this.positions == positions && this.maps == maps && this.missions == missions
      ensures actions == [] && queue == [] && log == [] && answered == []
    {
      this.positions := positions;
      this.maps := maps;
      this.missions := missions;
      actions := [];
      queue := [];
      log := [];
      answered := [];
    }

    /** GET `positions`. */
    method GetPositions(auth: string) returns (r: Result<seq<Entry>>)
      modifies this`log, this`answered
      ensures log == old(log) + [Call.GetPositions(auth)]
      ensures answered == old(answered) + [r.Ok?]
      ensures r.Ok? ==> r.value == positions
    {
      log := log + [Call.GetPositions(auth)];
      var ok: bool :| true;
      answered := answered + [ok];
      r := if ok then Ok(positions) else TransportError;
    }

    /** GET `maps`. */
    method GetMaps(auth: string) returns (r: Result<seq<Entry>>)
      modifies this`log, this`answered
      ensures log == old(log) + [Call.GetMaps(auth)]
      ensures answered == old(answered) + [r.Ok?]
      ensures r.Ok? ==> r.value == maps
    {
      log := log + [Call.GetMaps(auth)];
      var ok: bool :| true;
      answered := answered + [ok];
      r := if ok then Ok(maps) else TransportError;
    }

    /** GET `missions`. */
    method GetMissions(auth: string) returns (r: Result<seq<Entry>>)
      modifies this`log, this`answered
      ensures log == old(log) + [Call.GetMissions(auth)]
      ensures answered == old(answered) + [r.Ok?]
      ensures r.Ok? ==> r.value == missions
    {
      log := log + [Call.GetMissions(auth)];
      var ok: bool :| true;
      answered := answered + [ok];
      r := if ok then Ok(missions) else TransportError;
    }

    /** POST `mission_queue` with one parameter binding. */
    method PostMissionQueue(auth: string, missionId: string, paramInputName: string, paramInputValue: string)
      returns (ok: bool)
      modifies this`log, this`answered, this`queue
      ensures log == old(log) + [Call.PostMissionQueue(auth, QueueRequest(missionId, paramInputName, paramInputValue))]
      ensures answered == old(answered) + [ok]
      ensures queue == if ok then old(queue) + [QueueRequest(missionId, paramInputName, paramInputValue)] else old(queue)
    {
      var body := QueueRequest(missionId, paramInputName, paramInputValue);
      log := log + [Call.PostMissionQueue(auth, body)];
      ok :| true;
      answered := answered + [ok];
      if ok {
        queue := queue + [body];
      }
    }

    /** POST `missions`; on success the reply carries the guid the vendor assigned. */
    method PostMission(auth: string, missionName: string, missionGroupId: string, missionHidden: bool)
      returns (r: Result<Entry>)
      modifies this`log, this`answered, this`missions
      ensures log == old(log) + [Call.PostMission(auth, MissionBody(missionName, missionGroupId, missionHidden))]
      ensures answered == old(answered) + [r.Ok?]
      ensures r.Ok? ==> r.value.name == missionName && missions == old(missions) + [r.value]
      ensures r.TransportError? ==> missions == old(missions)
    {
      log := log + [Call.PostMission(auth, MissionBody(missionName, missionGroupId, missionHidden))];
      var ok: bool :| true;
      answered := answered + [ok];
      if ok {
        var guid: string :| true;
        r := Ok(Entry(missionName, guid));
        missions := missions + [r.value];
      } else {
        r := TransportError;
      }
    }

    /** POST `positions`. */
    method PostPosition(auth: string, mapId: string, posX: real, posY: real, posOrientation: real,
                        positionName: string, positionType: int)
      returns (r: Result<Entry>)
      modifies this`log, this`answered, this`positions
      ensures log == old(log) + [Call.PostPosition(auth, PositionBody(positionName, posX, posY, posOrientation, positionType, mapId))]
      ensures answered == old(answered) + [r.Ok?]
      ensures r.Ok? ==> r.value.name == positionName && positions == old(positions) + [r.value]
      ensures r.TransportError? ==> positions == old(positions)
    {
      var body := PositionBody(positionName, posX, posY, posOrientation, positionType, mapId);
      log := log + [Call.PostPosition(auth, body)];
      var ok: bool :| true;
      answered := answered + [ok];
      if ok {
        var guid: string :| true;
        r := Ok(Entry(positionName, guid));
        positions := positions + [r.value];
      } else {
        r := TransportError;
      }
    }

    /** POST `missions/<missionGuid>/actions` with a move action. */
    method PostMissionAction(auth: string, missionGuid: string, parameters: MoveParams) returns (ok: bool)
      modifies this`log, this`answered, this`actions
      ensures log == old(log) + [Call.PostMissionAction(auth, missionGuid, MoveActionRequest(parameters))]
      ensures answered == old(answered) + [ok]
      ensures actions == if ok then old(actions) + [Attached(missionGuid, MoveActionRequest(parameters))] else old(actions)
    {
      var body := MoveActionRequest(parameters);
      log := log + [Call.PostMissionAction(auth, missionGuid, body)];
      ok :| true;
      answered := answered + [ok];
      if ok {
        actions := actions + [Attached(missionGuid, body)];
      }
    }

    /** DELETE `missions/<missionGuid>`. */
    method DeleteMission(auth: string, missionGuid: string) returns (ok: bool)
      modifies this`log, this`answered, this`missions
      ensures log == old(log) + [Call.DeleteMission(auth, missionGuid)]
      ensures answered == old(answered) + [ok]
      ensures missions == if ok then Without(old(missions), missionGuid) else old(missions)
    {
      log := log + [Call.DeleteMission(auth, missionGuid)];
      ok :| true;
      answered := answered + [ok];
      if ok {
        missions := Without(missions, missionGuid);
      }
    }
  }
}
