/**
 * Name-to-GUID resolution over a vendor collection (`getMapGuidFromJSONBody`,
 * `getPositionGuidFromJSONBody`, `getMissionGuidFromJSONBody`).
 *
 * The three resolvers share one algorithm. They copy the `name` of every record
 * into an array, then scan that array and remember the index of every match, so
 * the LAST match wins. Finally they test the remembered index for JavaScript
 * truthiness: an index of 0 is falsy, so a match found only at index 0 is
 * reported with the not-found sentinel, exactly like no match at all.
 */
module Directory {
  import opened Wrappers

  /** One record of a vendor collection (a position, map or mission), reduced to the two fields the resolvers read. */
  datatype Entry = Entry(name: string, guid: string)

  const MapNotFound: string := "Map Guid not found"
  const PositionNotFound: string := "Position Guid not found"
  const MissionNotFound: string := "Mission Guid not found"

  /** The `name` fields of a collection, in order. */
  function Names(records: seq<Entry>): (names: seq<string>)
    ensures |names| == |records|
    ensures forall i :: 0 <= i < |records| ==> names[i] == records[i].name
  {
    seq(|records|, i requires 0 <= i < |records| => records[i].name)
  }

  /** The index of the last occurrence of `target` in `names`. */
  function LastIndexOf(names: seq<string>, target: string): (r: Option<nat>)
    ensures r.Some? ==> r.value < |names| && names[r.value] == target && target !in names[r.value + 1..]
    ensures r.None? <==> target !in names
  {
    if names == [] then None
    else if names[|names| - 1] == target then Some(|names| - 1)
    else
      var front := names[..|names| - 1];
      assert names == front + [names[|names| - 1]];
      match LastIndexOf(front, target)
      case Some(i) => (assert names[i + 1..] == front[i + 1..] + [names[|names| - 1]]; Some(i))
      case None => None
  }

  /**
   * What a resolver returns: the guid of the last record named `target`, unless
   * there is none or it sits at index 0, in which case the sentinel `notFound`.
   * Stated from the end of the collection: the first record is never consulted.
   */
  function Resolve(records: seq<Entry>, target: string, notFound: string): string
    decreases |records|
  {
    if |records| <= 1 then notFound
    else if records[|records| - 1].name == target then records[|records| - 1].guid
    else Resolve(records[..|records| - 1], target, notFound)
  }

  /** `Resolve` is what the two loops compute: the last index of the name, read with JavaScript truthiness. */
  lemma {:induction false} ResolveByLastIndex(records: seq<Entry>, target: string, notFound: string)
    ensures Resolve(records, target, notFound)
         == match LastIndexOf(Names(records), target)
            case Some(i) => if i != 0 then records[i].guid else notFound
            case None => notFound
  {
    var n := |records|;
    if n == 0 {
    } else if n == 1 {
      assert Names(records) == [records[0].name];
    } else {
      var front := records[..n - 1];
      assert Names(records) == Names(front) + [records[n - 1].name];
      assert Names(records)[..n - 1] == Names(front);
      ResolveByLastIndex(front, target, notFound);
    }
  }

  /** Record `i` is the last one named `target`. */
  predicate IsLastMatch(records: seq<Entry>, target: string, i: int)
  {
    0 <= i < |records| && records[i].name == target
    && forall j :: i < j < |records| ==> records[j].name != target
  }

  /** The last match wins, whatever matched before it. */
  lemma {:induction false} ResolveLastMatchWins(records: seq<Entry>, target: string, notFound: string, i: int)
    requires IsLastMatch(records, target, i) && i > 0
    ensures Resolve(records, target, notFound) == records[i].guid
  {
    ResolveByLastIndex(records, target, notFound);
    var names := Names(records);
    assert names[i] == target;
    var k := LastIndexOf(names, target).value;
    assert records[k].name == target;
    assert forall j :: k < j < |names| ==> names[j] == names[k + 1..][j - k - 1];
  }

  /** No record at index 1 or later is named `target` (none at all, or only the first): the sentinel comes back. */
  lemma {:induction false} ResolveNotFound(records: seq<Entry>, target: string, notFound: string)
    requires forall j :: 0 < j < |records| ==> records[j].name != target
    ensures Resolve(records, target, notFound) == notFound
  {
    ResolveByLastIndex(records, target, notFound);
    var names := Names(records);
    var r := LastIndexOf(names, target);
    if r.Some? {
      assert names[r.value] == records[r.value].name;
    }
  }

  /** A match that exists but only at index 0 is still reported as not found. */
  lemma {:induction false} ResolveIgnoresIndexZero(records: seq<Entry>, target: string, notFound: string)
    requires IsLastMatch(records, target, 0)
    ensures Resolve(records, target, notFound) == notFound
  {
    ResolveNotFound(records, target, notFound);
  }

  /** Anything other than the sentinel is the guid of a last match past index 0. */
  lemma {:induction false} ResolveSound(records: seq<Entry>, target: string, notFound: string)
    requires Resolve(records, target, notFound) != notFound
    ensures exists i :: IsLastMatch(records, target, i) && i > 0 && Resolve(records, target, notFound) == records[i].guid
  {
    ResolveByLastIndex(records, target, notFound);
    var names := Names(records);
    var i := LastIndexOf(names, target).value;
    assert forall j :: i < j < |records| ==> names[j] in names[i + 1..];
    assert IsLastMatch(records, target, i);
  }

  /**
   * The resolver loop shared by the three `get…GuidFromJSONBody` functions: one
   * loop copies the names, a second remembers the index of every match.
   */
  method ResolveGuid(records: seq<Entry>, target: string, notFound: string) returns (guid: string)
    ensures guid == Resolve(records, target, notFound)
  {
    var names: seq<string> := [];
    var i := 0;
    while i < |records|
      invariant 0 <= i <= |records|
      invariant names == Names(records[..i])
    {
      names := names + [records[i].name];
      i := i + 1;
    }
    assert records[..i] == records;

    var found: Option<nat> := None;
    var x := 0;
    while x < |names|
      invariant 0 <= x <= |names|
      invariant found == LastIndexOf(names[..x], target)
    {
      assert names[..x + 1][..x] == names[..x];
      if target == names[x] {
        found := Some(x);
      }
      x := x + 1;
    }
    assert names[..x] == names;
    ResolveByLastIndex(records, target, notFound);

    if found.Some? && found.value != 0 {
      guid := records[found.value].guid;
    } else {
      guid := notFound;
    }
  }

  /** `getMapGuidFromJSONBody`. */
  method MapGuidFromBody(maps: seq<Entry>, mapName: string) returns (guid: string)
    ensures guid == Resolve(maps, mapName, MapNotFound)
  {
    guid := ResolveGuid(maps, mapName, MapNotFound);
  }

  /** `getPositionGuidFromJSONBody`. */
  method PositionGuidFromBody(positions: seq<Entry>, binId: string) returns (guid: string)
    ensures guid == Resolve(positions, binId, PositionNotFound)
  {
    guid := ResolveGuid(positions, binId, PositionNotFound);
  }

  /** `getMissionGuidFromJSONBody`. */
  method MissionGuidFromBody(missions: seq<Entry>, missionName: string) returns (guid: string)
    ensures guid == Resolve(missions, missionName, MissionNotFound)
  {
    guid := ResolveGuid(missions, missionName, MissionNotFound);
  }

  /** A two-record collection: target "B" resolves, "C" does not, and "A" (at index 0) does not either. */
  lemma ExampleCollection()
    ensures Resolve([Entry("A", "g1"), Entry("B", "g2")], "B", PositionNotFound) == "g2"
    ensures Resolve([Entry("A", "g1"), Entry("B", "g2")], "C", PositionNotFound) == PositionNotFound
    ensures Resolve([Entry("A", "g1"), Entry("B", "g2")], "A", PositionNotFound) == PositionNotFound
  {
    var records := [Entry("A", "g1"), Entry("B", "g2")];
    ResolveLastMatchWins(records, "B", PositionNotFound, 1);
    ResolveNotFound(records, "C", PositionNotFound);
    ResolveIgnoresIndexZero(records, "A", PositionNotFound);
  }
}
