/** The destination guard's batched Message-ID search (internal/imapx/client.go): an OR
    tree per chunk, chunks halved on BAD, hits identified by their fetched headers. */
module Search {
  import Labels

  datatype Criteria = Header(value: string) | Or(left: Criteria, right: Criteria)

  function OrTree(ids: seq<string>): Criteria
    requires ids != []
  {
    if |ids| == 1 then Header(ids[0])
    else
      var mid := |ids| / 2;
      Or(OrTree(ids[..mid]), OrTree(ids[mid..]))
  }

  function Leaves(c: Criteria): seq<string> {
    match c
    case Header(v) => [v]
    case Or(l, r) => Leaves(l) + Leaves(r)
  }

  function Depth(c: Criteria): nat {
    match c
    case Header(_) => 1
    case Or(l, r) => 1 + if Depth(l) > Depth(r) then Depth(l) else Depth(r)
  }

  function Pow2(k: nat): nat { if k == 0 then 1 else 2 * Pow2(k - 1) }

  lemma {:induction false} OrTreeLeaves(ids: seq<string>)
    requires ids != []
    ensures Leaves(OrTree(ids)) == ids
  {
    if |ids| > 1 {
      var mid := |ids| / 2;
      OrTreeLeaves(ids[..mid]);
      OrTreeLeaves(ids[mid..]);
      assert ids == ids[..mid] + ids[mid..];
    }
  }

  /** The nesting grows with the logarithm of the number of ids. */
  lemma {:induction false} OrTreeDepth(ids: seq<string>, k: nat)
    requires ids != [] && |ids| <= Pow2(k)
    ensures Depth(OrTree(ids)) <= k + 1
  {
    if |ids| > 1 {
      var mid := |ids| / 2;
      OrTreeDepth(ids[..mid], k - 1);
      OrTreeDepth(ids[mid..], k - 1);
    }
  }

  /** HEADER search matches substrings, ignoring case (RFC 3501, section 6.4.4). */
  predicate OccursAt(header: string, id: string, i: nat) {
    i + |id| <= |header| && Labels.Lower(header)[i..i + |id|] == Labels.Lower(id)
  }

  predicate Contains(header: string, id: string) {
    exists i: nat :: i <= |header| && OccursAt(header, id, i)
  }

  predicate Matches(c: Criteria, header: string) {
    match c
    case Header(v) => Contains(header, v)
    case Or(l, r) => Matches(l, header) || Matches(r, header)
  }

  lemma {:induction false} MatchesLeaves(c: Criteria, header: string)
    ensures Matches(c, header) <==> exists v :: v in Leaves(c) && Contains(header, v)
  {
    match c
    case Header(v) => assert v in Leaves(c);
    case Or(l, r) =>
      MatchesLeaves(l, header);
      MatchesLeaves(r, header);
      assert forall v :: v in Leaves(c) <==> v in Leaves(l) || v in Leaves(r);
  }

  datatype Reply = Bad | Failed | Uids(uids: set<nat>)

  const DEFAULT_GUARD_CHUNK := 100

  function Halvings(chunk: nat): nat { if chunk <= 1 then 0 else 1 + Halvings(chunk / 2) }

  lemma DefaultHalvings()
    ensures Halvings(DEFAULT_GUARD_CHUNK) == 6
  {
    assert Halvings(25) == 4 by { assert Halvings(6) == 2; assert Halvings(12) == 3; }
  }

  /** The Message-IDs of messages in the folder that satisfy the criteria. */
  function Found(msgs: map<nat, string>, uids: set<nat>): set<string> {
    set u | u in uids && u in msgs && msgs[u] != "" :: msgs[u]
  }

  class Client {
    var guardChunk: nat

    constructor ()
      ensures guardChunk == DEFAULT_GUARD_CHUNK
    {
      guardChunk := DEFAULT_GUARD_CHUNK;
    }

    /** One UID SEARCH. A server may refuse any search with BAD or fail; a healthy one refuses
        exactly the searches with more leaves than its limit. */
    method UidSearch(c: Criteria, msgs: map<nat, string>, healthy: bool, limit: nat) returns (r: Reply)
      ensures r.Uids? ==> r.uids == set u | u in msgs && Matches(c, msgs[u])
      ensures healthy ==> !r.Failed? && (r.Bad? <==> |Leaves(c)| > limit)
    {
      var bad: bool := *;
      var failed: bool := *;
      if (healthy && |Leaves(c)| > limit) || (!healthy && bad) { return Bad; }
      if !healthy && failed { return Failed; }
      r := Uids(set u | u in msgs && Matches(c, msgs[u]));
    }

    /** Which of the ids the folder holds; None on an error. The chunk size only shrinks,
        by one halving per refusal, and stays shrunk. A healthy server always gets through. */
    method SearchMessageIDsIn(msgs: map<nat, string>, ids: seq<string>, healthy: bool, limit: nat)
      returns (ok: bool, found: set<string>, ghost halved: nat)
      requires 1 <= guardChunk
      modifies this
      ensures ok ==> forall id :: id in ids && id != "" ==> (id in found <==> id in msgs.Values)
      ensures ok ==> forall id :: id in found ==> id != "" && id in msgs.Values
      ensures 1 <= guardChunk <= old(guardChunk)
      ensures Halvings(guardChunk) + halved == Halvings(old(guardChunk))
      ensures healthy && 1 <= limit ==> ok
    {
      found := {};
      halved := 0;
      var i := 0;
      while i < |ids|
        invariant 0 <= i <= |ids|
        invariant 1 <= guardChunk <= old(guardChunk)
        invariant Halvings(guardChunk) + halved == Halvings(old(guardChunk))
        invariant forall id :: id in found ==> id != "" && id in msgs.Values
        invariant forall j :: 0 <= j < i && ids[j] != "" && ids[j] in msgs.Values ==> ids[j] in found
        decreases |ids| - i, guardChunk
      {
        var end := if i + guardChunk < |ids| then i + guardChunk else |ids|;
        OrTreeLeaves(ids[i..end]);
        var reply := UidSearch(OrTree(ids[i..end]), msgs, healthy, limit);
        match reply {
          case Bad =>
            if guardChunk > 1 {
              guardChunk := guardChunk / 2;
              halved := halved + 1;
              continue;
            }
            return false, found, halved;
          case Failed =>
            return false, found, halved;
          case Uids(uids) =>
            ChunkFound(msgs, ids[i..end], uids);
            assert forall j :: i <= j < end ==> ids[j] in ids[i..end];
            found := found + Found(msgs, uids);
            i := end;
        }
      }
      return true, found, halved;
    }
  }

  /** Substring search never misses an exact header. */
  lemma ChunkFound(msgs: map<nat, string>, ids: seq<string>, uids: set<nat>)
    requires ids != [] && uids == set u | u in msgs && Matches(OrTree(ids), msgs[u])
    ensures forall id :: id in ids && id != "" && id in msgs.Values ==> id in Found(msgs, uids)
  {
    OrTreeLeaves(ids);
    forall id | id in ids && id != "" && id in msgs.Values ensures id in Found(msgs, uids) {
      var u :| u in msgs && msgs[u] == id;
      assert OccursAt(id, id, 0);
      MatchesLeaves(OrTree(ids), id);
      assert u in uids;
    }
  }
}
