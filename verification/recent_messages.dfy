/** The recent-conversations list of the main screen and the listener that
    maintains it (`MainMessagesViewModel.fetchRecentMessages`). Every change
    removes the first entry with the changed document's id and, when the
    document decodes, puts the decoded entry at the front: a move-to-front
    list keyed by the peer's uid. */
module RecentMessages {
  import opened Wrappers
  import opened MessageStore

  /** A decoded recent row; `id` is the document id, which is the peer's uid. */
  datatype RecentMessage = RecentMessage(id: string, entry: RecentEntry)

  /** One change of the recent-rows listener. Decoding the document
      (`data(as: RecentMessage.self)`) is done by the database library and is
      supplied here as its outcome: the row, or nothing when decoding threw. */
  datatype RecentChange = RecentChange(documentId: string, decoded: Option<RecentEntry>)

  predicate HasId(l: seq<RecentMessage>, id: string)
  {
    exists j :: 0 <= j < |l| && l[j].id == id
  }

  ghost predicate UniqueIds(l: seq<RecentMessage>)
  {
    forall i, j :: 0 <= i < j < |l| ==> l[i].id != l[j].id
  }

  /** `firstIndex(where: { $0.id == id })`. */
  function FirstIndex(l: seq<RecentMessage>, id: string): (r: Option<nat>)
    ensures r.None? <==> !HasId(l, id)
    ensures r.Some? ==> r.value < |l| && l[r.value].id == id
    ensures r.Some? ==> forall j :: 0 <= j < r.value ==> l[j].id != id
  {
    if |l| == 0 then None
    else if l[0].id == id then Some(0)
    else match FirstIndex(l[1..], id)
      case None => (assert forall j :: 1 <= j < |l| ==> l[j] == l[1..][j - 1]; None)
      case Some(i) => Some(i + 1)
  }

  /** The entries whose id is not `id`, in list order. */
  function Others(l: seq<RecentMessage>, id: string): seq<RecentMessage>
  {
    if |l| == 0 then []
    else (if l[0].id == id then [] else [l[0]]) + Others(l[1..], id)
  }

  lemma {:induction false} OthersAppend(a: seq<RecentMessage>, b: seq<RecentMessage>, id: string)
    ensures Others(a + b, id) == Others(a, id) + Others(b, id)
  {
    if |a| == 0 {
      assert a + b == b;
    } else {
      assert (a + b)[1..] == a[1..] + b;
      OthersAppend(a[1..], b, id);
    }
  }

  /** The `if let index … { remove(at: index) }` step: drops the first entry
      with the id, if there is one. */
  function RemoveFirst(l: seq<RecentMessage>, id: string): (r: seq<RecentMessage>)
    ensures !HasId(l, id) ==> r == l
    ensures HasId(l, id) ==> |r| == |l| - 1
    ensures forall m :: m in r ==> m in l
    ensures FirstIndex(l, id).Some? ==> multiset(r) + multiset{l[FirstIndex(l, id).value]} == multiset(l)
  {
    match FirstIndex(l, id)
    case None => l
    case Some(i) =>
      assert l == l[..i] + [l[i]] + l[i + 1..];
      l[..i] + l[i + 1..]
  }

  /** Removal drops one entry carrying the id and keeps every other entry in place. */
  lemma RemoveFirstKeepsOthers(l: seq<RecentMessage>, id: string)
    ensures Others(RemoveFirst(l, id), id) == Others(l, id)
  {
    match FirstIndex(l, id)
    case None =>
    case Some(i) =>
      assert l == l[..i] + [l[i]] + l[i + 1..];
      OthersAppend(l[..i] + [l[i]], l[i + 1..], id);
      OthersAppend(l[..i], [l[i]], id);
      OthersAppend(l[..i], l[i + 1..], id);
      assert Others([l[i]], id) == [] by {
        assert [l[i]][1..] == [];
      }
  }

  /** In a list with unique ids, removal takes out the only entry with the
      id and what remains still has unique ids. */
  lemma RemoveFirstUnique(l: seq<RecentMessage>, id: string)
    requires UniqueIds(l)
    ensures UniqueIds(RemoveFirst(l, id))
    ensures !HasId(RemoveFirst(l, id), id)
  {
  }

  /** One change applied to the list. */
  function ApplyRecentChange(l: seq<RecentMessage>, c: RecentChange): (r: seq<RecentMessage>)
    ensures c.decoded.Some? ==> |r| > 0 && r[0] == RecentMessage(c.documentId, c.decoded.value)
    ensures c.decoded.None? ==> r == RemoveFirst(l, c.documentId)
    ensures |r| == |l| + (if c.decoded.Some? then 1 else 0) - (if HasId(l, c.documentId) then 1 else 0)
  {
    var rest := RemoveFirst(l, c.documentId);
    match c.decoded
    case None => rest
    case Some(e) => [RecentMessage(c.documentId, e)] + rest
  }

  /** Entries with any other id keep their relative order. */
  lemma ApplyKeepsOthers(l: seq<RecentMessage>, c: RecentChange)
    ensures Others(ApplyRecentChange(l, c), c.documentId) == Others(l, c.documentId)
  {
    var rest := RemoveFirst(l, c.documentId);
    RemoveFirstKeepsOthers(l, c.documentId);
    match c.decoded
    case None =>
    case Some(e) =>
      var r := [RecentMessage(c.documentId, e)] + rest;
      assert r[1..] == rest;
  }

  /** Unique ids stay unique; a change whose document does not decode leaves
      no entry with its id behind. */
  lemma ApplyKeepsIdsUnique(l: seq<RecentMessage>, c: RecentChange)
    requires UniqueIds(l)
    ensures UniqueIds(ApplyRecentChange(l, c))
    ensures c.decoded.None? ==> !HasId(ApplyRecentChange(l, c), c.documentId)
  {
    var rest := RemoveFirst(l, c.documentId);
    RemoveFirstUnique(l, c.documentId);
    match c.decoded
    case None =>
    case Some(e) =>
      var r := [RecentMessage(c.documentId, e)] + rest;
      assert forall j :: 1 <= j < |r| ==> r[j] == rest[j - 1];
  }

  /** The changes of one snapshot applied in delivery order. Every entry of
      the result was already in the list or is the decoded row of one of the
      changes, under that change's document id; the list grows by at most one
      entry per change; and the last change, when it decodes, ends up first. */
  function ApplyRecentChanges(l: seq<RecentMessage>, cs: seq<RecentChange>): (r: seq<RecentMessage>)
    ensures |r| <= |l| + |cs|
    ensures forall m :: m in r ==>
      m in l || exists j :: 0 <= j < |cs| && cs[j] == RecentChange(m.id, Some(m.entry))
    ensures |cs| > 0 && cs[|cs| - 1].decoded.Some? ==>
      |r| > 0 && r[0] == RecentMessage(cs[|cs| - 1].documentId, cs[|cs| - 1].decoded.value)
  {
    if |cs| == 0 then l
    else ApplyRecentChange(ApplyRecentChanges(l, cs[..|cs| - 1]), cs[|cs| - 1])
  }

  /** The `documentChanges.forEach` loop of the listener. */
  method ApplySnapshot(l: seq<RecentMessage>, cs: seq<RecentChange>) returns (r: seq<RecentMessage>)
    ensures r == ApplyRecentChanges(l, cs)
  {
    r := l;
    var i := 0;
    while i < |cs|
      invariant 0 <= i <= |cs|
      invariant r == ApplyRecentChanges(l, cs[..i])
    {
      assert cs[..i + 1][..i] == cs[..i];
      r := ApplyRecentChange(r, cs[i]);
      i := i + 1;
    }
    assert cs[..|cs|] == cs;
  }

  lemma {:induction false} ApplyAllKeepsIdsUnique(l: seq<RecentMessage>, cs: seq<RecentChange>)
    requires UniqueIds(l)
    ensures UniqueIds(ApplyRecentChanges(l, cs))
  {
    if |cs| > 0 {
      ApplyAllKeepsIdsUnique(l, cs[..|cs| - 1]);
      ApplyKeepsIdsUnique(ApplyRecentChanges(l, cs[..|cs| - 1]), cs[|cs| - 1]);
    }
  }

  predicate AllDecoded(cs: seq<RecentChange>)
  {
    forall i :: 0 <= i < |cs| ==> cs[i].decoded.Some?
  }

  ghost predicate DistinctIds(cs: seq<RecentChange>)
  {
    forall i, j :: 0 <= i < j < |cs| ==> cs[i].documentId != cs[j].documentId
  }

  /** The entry a change that decodes puts at the front. */
  function Decoded(c: RecentChange): RecentMessage
    requires c.decoded.Some?
  {
    RecentMessage(c.documentId, c.decoded.value)
  }

  /** The decoded entries of the changes, last delivered first. */
  function NewestDelivered(cs: seq<RecentChange>): (r: seq<RecentMessage>)
    requires AllDecoded(cs)
    ensures |r| == |cs|
    ensures forall i :: 0 <= i < |cs| ==> r[i] == Decoded(cs[|cs| - 1 - i])
  {
    if |cs| == 0 then []
    else [Decoded(cs[|cs| - 1])] + NewestDelivered(cs[..|cs| - 1])
  }

  /** From an empty list, changes with distinct ids that all decode end up in
      reverse delivery order: the last delivered is first. */
  lemma {:induction false} FromEmptyReversesDelivery(cs: seq<RecentChange>)
    requires AllDecoded(cs) && DistinctIds(cs)
    ensures ApplyRecentChanges([], cs) == NewestDelivered(cs)
  {
    if |cs| > 0 {
      var init := cs[..|cs| - 1];
      var last := cs[|cs| - 1];
      SplitLast(cs);
      FromEmptyReversesDelivery(init);
      LastIdIsNew(ApplyRecentChanges([], init), init, last.documentId);
      PrependNew(ApplyRecentChanges([], init), last);
    }
  }

  /** The delivered changes before the last one keep the hypotheses, and none
      carries the last one's id. */
  lemma SplitLast(cs: seq<RecentChange>)
    requires |cs| > 0 && AllDecoded(cs) && DistinctIds(cs)
    ensures AllDecoded(cs[..|cs| - 1]) && DistinctIds(cs[..|cs| - 1])
    ensures forall i :: 0 <= i < |cs| - 1 ==> cs[i].documentId != cs[|cs| - 1].documentId
  {
  }

  /** A decodable change whose id is new is simply put in front. */
  lemma PrependNew(l: seq<RecentMessage>, c: RecentChange)
    requires c.decoded.Some? && !HasId(l, c.documentId)
    ensures ApplyRecentChange(l, c) == [Decoded(c)] + l
  {
  }

  /** An id that no change of `init` carries is not in the list `init` built. */
  lemma LastIdIsNew(before: seq<RecentMessage>, init: seq<RecentChange>, id: string)
    requires AllDecoded(init)
    requires |before| == |init|
    requires forall i :: 0 <= i < |init| ==> before[i] == Decoded(init[|init| - 1 - i])
    requires forall i :: 0 <= i < |init| ==> init[i].documentId != id
    ensures !HasId(before, id)
  {
  }

  /** Timestamps in non-increasing order, newest first. */
  ghost predicate NewestFirst(l: seq<RecentMessage>)
  {
    forall i, j :: 0 <= i < j < |l| ==> l[i].entry.timestamp >= l[j].entry.timestamp
  }

  /** The decoded changes come in non-decreasing timestamp order; changes
      whose document does not decode are not constrained. */
  ghost predicate AscendingDecoded(cs: seq<RecentChange>)
  {
    forall i, j :: 0 <= i < j < |cs| && cs[i].decoded.Some? && cs[j].decoded.Some? ==>
      cs[i].decoded.value.timestamp <= cs[j].decoded.value.timestamp
  }

  /** What the changes before the last one built does not hold the last
      change's id, and no entry in it is newer than the last change. */
  lemma BuiltFromEarlier(cs: seq<RecentChange>)
    requires |cs| > 0 && DistinctIds(cs) && AscendingDecoded(cs)
    ensures var before := ApplyRecentChanges([], cs[..|cs| - 1]);
            && !HasId(before, cs[|cs| - 1].documentId)
            && (cs[|cs| - 1].decoded.Some? ==>
                  forall k :: 0 <= k < |before| ==> before[k].entry.timestamp <= cs[|cs| - 1].decoded.value.timestamp)
  {
    var init := cs[..|cs| - 1];
    var last := cs[|cs| - 1];
    var before := ApplyRecentChanges([], init);
    forall k | 0 <= k < |before|
      ensures before[k].id != last.documentId
      ensures last.decoded.Some? ==> before[k].entry.timestamp <= last.decoded.value.timestamp
    {
      assert before[k] in before;
      var j :| 0 <= j < |init| && init[j] == RecentChange(before[k].id, Some(before[k].entry));
      assert init[j] == cs[j];
    }
  }

  /** A change whose id is new and whose entry is at least as new as every
      listed one keeps the list newest first. */
  lemma PrependNewestFirst(l: seq<RecentMessage>, c: RecentChange)
    requires NewestFirst(l) && !HasId(l, c.documentId)
    requires c.decoded.Some? ==> forall k :: 0 <= k < |l| ==> l[k].entry.timestamp <= c.decoded.value.timestamp
    ensures NewestFirst(ApplyRecentChange(l, c))
  {
    assert RemoveFirst(l, c.documentId) == l;
  }

  /** The initial snapshot comes ordered by timestamp ascending; with distinct
      ids, the list shows newest first, whether or not every document decodes
      (one that does not is skipped). */
  lemma {:induction false} AscendingDeliveryShowsNewestFirst(cs: seq<RecentChange>)
    requires DistinctIds(cs) && AscendingDecoded(cs)
    ensures NewestFirst(ApplyRecentChanges([], cs))
  {
    if |cs| > 0 {
      var init := cs[..|cs| - 1];
      assert forall i :: 0 <= i < |init| ==> init[i] == cs[i];
      AscendingDeliveryShowsNewestFirst(init);
      BuiltFromEarlier(cs);
      PrependNewestFirst(ApplyRecentChanges([], init), cs[|cs| - 1]);
    }
  }
}
