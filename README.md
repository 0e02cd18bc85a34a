# MiR wrapper: a verified model

This project models the MiR vendor wrapper of the robotics prototype
(`prototype/lib/vendor/mir/wrapperServices.js`). The wrapper is the part of the
repository that holds its own logic. It has three parts:

- **Name-to-GUID resolvers** (`getMapGuidFromJSONBody`, `getPositionGuidFromJSONBody`,
  `getMissionGuidFromJSONBody`), in module `Directory`. Each copies the record names
  into an array, then scans for the target and remembers the index of every match.
  So the last match wins, and a match at index 0 is read as "not found" because the
  index is tested for truthiness. The loop method `ResolveGuid` is proved equal to
  the specification function `Resolve`, and the lemmas about `Resolve` state its
  behaviour.
- **The credential token** (`computeHash`), in module `Auth`. The token is
  Base64(username ":" lower-hex(SHA-256(password))). SHA-256 and Base64 are
  uninterpreted function fields of a `Crypto` value. The hex rendering is modelled
  concretely, with a decoder, so that the format and a read-back property can be
  proved.
- **The two workflows** (`moveToBin`, `moveToPosition`), in module `Workflows`. Each
  runs over `Vendor.MirVendor`, a class that holds:
  - the vendor's positions, maps, missions, attached actions and mission queue;
  - a log of every request the wrapper issued;
  - for each logged request, whether it got a reply or a transport error.

  Every vendor request (module `Vendor`) logs itself. It then either succeeds or
  fails with a transport error; which one happens is left open, and the outcome is
  recorded. Each workflow contract states three things:
  - exactly which prefix of the workflow's planned call sequence was issued, with
    which arguments;
  - why the workflow stopped: every issued request but the last got a reply, and
    the last one got none exactly when the workflow stopped on a transport error
    rather than on a failed lookup or on completion;
  - how the vendor's collections changed.

The request bodies that `postMissionQueue` and `postMissionAction` build are in
module `Requests`, with readers that recover their arguments.

Module `Scenarios` holds concrete runs on small collections. One of them is the
run the module itself starts at `wrapperServices.js:505` ("Team Area", "Test Position").

The resolvers' own comments do not say which match is meant when a name occurs
more than once. The model follows the code: the last match wins, and a match at
index 0 is ignored.

## Model

| member | source | states |
|---|---|---|
| Directory.LastIndexOf | prototype/lib/vendor/mir/wrapperServices.js:357-361 | the scan's remembered index is a position holding the target with no later occurrence; there is none exactly when the target is absent |
| Directory.ResolveByLastIndex | prototype/lib/vendor/mir/wrapperServices.js:349-366 | a resolver returns the guid at the last index of the name unless that index is missing or 0 (JavaScript truthiness), else the sentinel |
| Directory.ResolveLastMatchWins | prototype/lib/vendor/mir/wrapperServices.js:383-391 | when record i > 0 is the last one with the name, its guid is returned, whatever matched earlier |
| Directory.ResolveNotFound | prototype/lib/vendor/mir/wrapperServices.js:415-417 | with no matching record past index 0, the sentinel string is returned |
| Directory.ResolveIgnoresIndexZero | prototype/lib/vendor/mir/wrapperServices.js:363 | a name found only at index 0 still yields the sentinel |
| Directory.ResolveSound | prototype/lib/vendor/mir/wrapperServices.js:363-365 | any non-sentinel result is the guid of a last match at an index above 0 |
| Directory.ResolveGuid | prototype/lib/vendor/mir/wrapperServices.js:349-366 | the two loops (copy the names, remember each match) compute `Resolve` |
| Directory.MapGuidFromBody | prototype/lib/vendor/mir/wrapperServices.js:349-366 | `getMapGuidFromJSONBody`: resolution with sentinel "Map Guid not found" |
| Directory.PositionGuidFromBody | prototype/lib/vendor/mir/wrapperServices.js:375-392 | `getPositionGuidFromJSONBody`: resolution with sentinel "Position Guid not found" |
| Directory.MissionGuidFromBody | prototype/lib/vendor/mir/wrapperServices.js:400-418 | `getMissionGuidFromJSONBody`: resolution with sentinel "Mission Guid not found" |
| Directory.ExampleCollection | prototype/lib/vendor/mir/wrapperServices.js:375-392 | on [A->g1, B->g2]: "B" gives g2, while "C" and "A" (index 0) give the sentinel |
| Auth.LowerHex | prototype/lib/vendor/mir/wrapperServices.js:32 | `digest('hex')` gives two lower-case hex digits per byte |
| Auth.HexRoundTrip | prototype/lib/vendor/mir/wrapperServices.js:32 | the hex rendering is decodable: decoding it gives back the digest bytes |
| Auth.CredentialTextFormat | prototype/lib/vendor/mir/wrapperServices.js:31-33 | the text before Base64 is the user name, one colon, then exactly 64 lower-case hex digits |
| Auth.CredentialRoundTrip | prototype/lib/vendor/mir/wrapperServices.js:30-35 | splitting the text at its first colon gives back the user name and the password's SHA-256 digest, for a user name without a colon |
| Auth.ColonInUsernameIsMisread | prototype/lib/vendor/mir/wrapperServices.js:33 | no input is validated: a user name with a colon ("a:b") is not read back by a split at the first colon |
| Auth.ComputeHash | prototype/lib/vendor/mir/wrapperServices.js:30-35 | the token is Base64 of the credential text; the contract is stated by Auth.CredentialTextFormat (the text is user name, ':', 64 lower-case hex digits) and Auth.TokenDeterminesCredentials (for an injective Base64 the token fixes the user name and the password digest) |
| Auth.CredentialRoundTripFromEnd | prototype/lib/vendor/mir/wrapperServices.js:31-33 | splitting the text 65 characters from its end gives back every user name, colons included, and the password's SHA-256 digest |
| Auth.TokenDeterminesCredentials | prototype/lib/vendor/mir/wrapperServices.js:30-35 | if Base64 is injective, equal tokens mean equal user names and equal password digests |
| Requests.QueueRequest | prototype/lib/vendor/mir/wrapperServices.js:146-154 | the queue body names the mission and binds exactly one `{input_name, value}` pair, read back unchanged |
| Requests.MoveActionRequest | prototype/lib/vendor/mir/wrapperServices.js:260-271 | the action body has priority 1 and three parameters (position with its input name, then retries and distance_threshold with null input names); the arguments are read back unchanged |
| Vendor.WithoutAppend | prototype/lib/vendor/mir/wrapperServices.js:318-336 | DELETE keeps the surviving records in order: deleting from a concatenation deletes from each part |
| Vendor.WithoutSpec | prototype/lib/vendor/mir/wrapperServices.js:318-336 | DELETE of a mission guid removes exactly the records with that guid; an unknown guid removes nothing |
| Vendor.MirVendor.GetPositions | prototype/lib/vendor/mir/wrapperServices.js:42-57 | logs GET positions with the token and records whether it got a reply; returns the collection or a transport error |
| Vendor.MirVendor.GetMaps | prototype/lib/vendor/mir/wrapperServices.js:64-79 | logs GET maps with the token and records whether it got a reply; returns the collection or a transport error |
| Vendor.MirVendor.GetMissions | prototype/lib/vendor/mir/wrapperServices.js:108-123 | logs GET missions with the token and records whether it got a reply; returns the collection or a transport error |
| Vendor.MirVendor.PostMissionQueue | prototype/lib/vendor/mir/wrapperServices.js:137-163 | logs the queue body and records whether it got a reply; the queue grows by that body on success only |
| Vendor.MirVendor.PostMission | prototype/lib/vendor/mir/wrapperServices.js:173-200 | logs name, group and hidden flag and records whether it got a reply; on success the reply is the new mission, appended to the missions |
| Vendor.MirVendor.PostPosition | prototype/lib/vendor/mir/wrapperServices.js:212-240 | logs the position body and records whether it got a reply; on success the reply is the new position, appended to the positions |
| Vendor.MirVendor.PostMissionAction | prototype/lib/vendor/mir/wrapperServices.js:249-280 | logs the move action for the mission guid and records whether it got a reply; on success the action is attached to that mission |
| Vendor.MirVendor.DeleteMission | prototype/lib/vendor/mir/wrapperServices.js:318-336 | logs DELETE of the mission guid and records whether it got a reply; on success the missions lose that guid |
| Workflows.BinMissionName | prototype/lib/vendor/mir/wrapperServices.js:436 | an undefined mission name becomes "Navigate to warehouse bin"; a given one is used as is |
| Workflows.MoveToBin | prototype/lib/vendor/mir/wrapperServices.js:435-454 | issues GET positions, GET missions, then the enqueue, as a prefix ending at the first failure. An unresolved position stops it after the first call, an unresolved mission after the second. The enqueue carries the resolved mission with the single binding askVar = position guid. The queue grows by that entry exactly when the workflow completes. The recorded replies tell each stop apart: a stop at GET positions, GET missions or the enqueue leaves that request without a reply, and every earlier request got one |
| Workflows.RepliesTellStop | prototype/lib/vendor/mir/wrapperServices.js:441 | the reply record of a stopped run: every request but the last got a reply, and the last got one exactly when the stop was not a transport error |
| Workflows.RepliesAllReplied | prototype/lib/vendor/mir/wrapperServices.js:441 | every request of a run got a reply exactly when it did not stop on a transport error |
| Workflows.BinRepliesShape | prototype/lib/vendor/mir/wrapperServices.js:440-453 | the replies `moveToBin` records are those of a run whose only possibly failed request is the last, which failed exactly on a transport stop |
| Workflows.BinAllReplied | prototype/lib/vendor/mir/wrapperServices.js:440-453 | every request of `moveToBin` got a reply exactly when it completed or stopped on an unresolved name |
| Workflows.UnresolvedMapPassesCheck | prototype/lib/vendor/mir/wrapperServices.js:469-471 | an unresolved map name yields "Map Guid not found", which the check against "Mission Guid not found" lets through |
| Workflows.MapCheckNeedsSentinelGuid | prototype/lib/vendor/mir/wrapperServices.js:470 | the map check fires only when the last map with that name sits past index 0 and has the literal guid "Mission Guid not found" |
| Workflows.GetMissionGuid | prototype/lib/vendor/mir/wrapperServices.js:424-426 | returns the guid of postMission's reply; Workflows.RunOneOffMission states that this is the guid of the mission just appended to the vendor's missions and the one every later call uses |
| Workflows.PlacePosition | prototype/lib/vendor/mir/wrapperServices.js:467-473 | GET maps, then POST the position on the resolved map guid (even a sentinel one); it stops at the map check only for a map guid equal to the mission sentinel. A stop at GET maps or at the POST leaves that request without a reply |
| Workflows.RunOneOffMission | prototype/lib/vendor/mir/wrapperServices.js:474-494 | creates "Auto-Generated Mission" (not hidden, group overwritten with the fixed group), then attaches the move to the fixed position guid, enqueues and deletes. Each call uses the guid from postMission's reply (`getMissionGuid`, lines 424-426). The calls are issued strictly in order, up to the first failure. Only a failed request that ends the run lacks a reply |
| Workflows.MoveToPosition | prototype/lib/vendor/mir/wrapperServices.js:463-499 | the full call order getMaps, postPosition, postMission, postMissionAction, postMissionQueue, deleteMission as a prefix ending at the first failure. Also states the map check's behaviour, which request lacks a reply for each way it can stop, and what each successful step adds to or removes from the vendor |
| Workflows.PositionRepliesShape | prototype/lib/vendor/mir/wrapperServices.js:467-494 | the replies `moveToPosition` records are those of a run whose only possibly failed request is the last, which failed exactly on a transport stop |
| Workflows.PositionAllReplied | prototype/lib/vendor/mir/wrapperServices.js:467-494 | every request of `moveToPosition` got a reply exactly when it completed or stopped at the map check |
| Workflows.JoinPhases | prototype/lib/vendor/mir/wrapperServices.js:471-474 | the position phase followed by the mission phase issues a prefix of the whole plan, with the replies of both phases in order |
| Scenarios.TeamAreaRun | prototype/lib/vendor/mir/wrapperServices.js:505 | the module's own call on maps [Elsewhere, Team Area]: the position is created on the Team Area map, and a run of six calls deletes the mission it acted on. When every request gets a reply, all six calls are issued and the queue holds that mission with askVar bound to the fixed position |
| Scenarios.TeamAreaEnd | prototype/lib/vendor/mir/wrapperServices.js:505 | the same facts, stated on the values a run with map guid m1 leaves behind |
| Scenarios.TeamAreaFirstRun | prototype/lib/vendor/mir/wrapperServices.js:505 | the same call with "Team Area" only at index 0: the position is posted with map_id "Map Guid not found" |
| Scenarios.UnknownBinRun | prototype/lib/vendor/mir/wrapperServices.js:440-443 | an unknown bin issues only GET positions and enqueues nothing |
| Scenarios.KnownBinRun | prototype/lib/vendor/mir/wrapperServices.js:440-453 | known bin and default mission: the enqueue binds askVar to the bin's guid on the mission's guid. When every request gets a reply, all three calls are issued and the queue holds that entry |
| Scenarios.KnownBinEnd | prototype/lib/vendor/mir/wrapperServices.js:440-453 | the same facts, stated on the values a run with both names resolved leaves behind |

## Left out

- HTTP transport is not modelled: the `request` calls, headers, URLs, the proxy and configuration, and `JSON.parse` of replies. Each request is one abstract step that succeeds or fails with a transport error. Non-2xx replies are not told apart, since the wrapper does not look at the status.
- SHA-256 and Base64 are not modelled internally; they are library calls. They are uninterpreted functions, and only the hex rendering of the digest is concrete.
- The user name and password that the wrapper reads from its settings are the `creds` parameter.
- The double callback is not reproduced. On a transport error, postMission, postPosition, postMissionAction and deleteMission call their callback a second time as a success. Here each request has exactly one outcome, and the defect is described in the `Vendor` module's comment. As a result, "a prefix ending at the first failure" in the workflow contracts describes the model, not the source. In the source, a transport error in postPosition or postMissionAction is followed by a second callback as a success, which carries `moveToPosition` on to postMission or postMissionQueue.
- Workflows.MoveToPosition: on a postMission transport error the source does not return. It throws a TypeError when it reads the guid of the missing reply. The model ends the workflow at that step (`Aborted(CreateMission)`).
- Workflows.PlacePosition: when the map check fires, the source throws a ReferenceError on an undeclared name. The model ends the workflow at that step (`Aborted(ResolveMap)`).
- Records in a collection are reduced to `name` and `guid`, the only fields the resolvers and workflows read. The name is always a string. So the model does not capture the resolvers' loose `==` matching an undefined target against a record whose name is null or missing.
- `deletePosition` and `getSessions` are not modelled, because neither workflow calls them.
- The exported wrappers are not modelled. `moveRobotToPosition` drops the map name, so a call through it resolves an undefined name. That is the no-match case here only because every modelled record has a string name.
- The call at module load is modelled only as a scenario, with assumed vendor collections.
- Console logging is not modelled, and neither is the robot name, which both workflows ignore.
- A `null` mission name is not modelled: `moveToBin` only replaces an undefined one.
- Nothing is said about concurrency between workflows: every workflow runs alone against the vendor.
- `prototype/src/SAPRoboticServices.js`, `prototype/src/tableDisplayServer.js` and `prototype/lib/db.js` are not part of this model. They are Express routes, view rendering and a database helper whose logic lives in SQL strings.
