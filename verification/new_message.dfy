/** The partner picker's view model (`CreateNewMessageViewModel.fetchAllUsers`):
    every profile in `users` except the signed-in user's own is appended to
    the list, in the order the query returns them. */
module NewMessage {
  import opened Wrappers
  import opened Firestore
  import opened Users

  /** `user.uid != currentUser?.uid`: a string never equals an absent uid,
      so with nobody signed in every profile is kept. */
  predicate Keeps(currentUid: Option<string>, user: ChatUser): (r: bool)
    ensures currentUid.None? ==> r
    ensures currentUid.Some? ==> (r <==> currentUid.value != user.uid)
  {
    currentUid != Some(user.uid)
  }

  /** The fetched profiles that pass the test, in query order. */
  function ExcludeCurrent(docs: seq<ChatUser>, currentUid: Option<string>): (r: seq<ChatUser>)
    ensures |r| <= |docs|
  {
    if |docs| == 0 then []
    else (if Keeps(currentUid, docs[0]) then [docs[0]] else []) + ExcludeCurrent(docs[1..], currentUid)
  }

  /** A profile is kept exactly when it was fetched and is not the signed-in user's. */
  lemma {:induction false} ExcludeCurrentMembers(docs: seq<ChatUser>, currentUid: Option<string>)
    ensures forall u :: u in ExcludeCurrent(docs, currentUid) <==> u in docs && Keeps(currentUid, u)
  {
    if |docs| > 0 {
      ExcludeCurrentMembers(docs[1..], currentUid);
      assert docs == [docs[0]] + docs[1..];
    }
  }

  /** Each kept profile appears as many times as it was fetched: the filter
      drops no duplicate and invents none. */
  lemma {:induction false} ExcludeCurrentCounts(docs: seq<ChatUser>, currentUid: Option<string>)
    ensures forall u :: multiset(ExcludeCurrent(docs, currentUid))[u]
                        == if Keeps(currentUid, u) then multiset(docs)[u] else 0
  {
    if |docs| > 0 {
      ExcludeCurrentCounts(docs[1..], currentUid);
      assert docs == [docs[0]] + docs[1..];
    }
  }

  /** `a` is `b` with some elements left out and the rest in their order. */
  predicate IsSubsequence(a: seq<ChatUser>, b: seq<ChatUser>)
    decreases |b|
  {
    |a| == 0 || (|b| > 0 && ((a[0] == b[0] && IsSubsequence(a[1..], b[1..])) || IsSubsequence(a, b[1..])))
  }

  /** Filtering keeps the relative order of the profiles it keeps. */
  lemma {:induction false} ExcludeCurrentKeepsOrder(docs: seq<ChatUser>, currentUid: Option<string>)
    ensures IsSubsequence(ExcludeCurrent(docs, currentUid), docs)
  {
    if |docs| > 0 {
      ExcludeCurrentKeepsOrder(docs[1..], currentUid);
      var rest := ExcludeCurrent(docs[1..], currentUid);
      if Keeps(currentUid, docs[0]) {
        assert ExcludeCurrent(docs, currentUid) == [docs[0]] + rest;
        assert ([docs[0]] + rest)[1..] == rest;
      } else {
        assert ExcludeCurrent(docs, currentUid) == rest;
      }
    }
  }

  /** With nobody signed in nothing is excluded. */
  lemma {:induction false} SignedOutKeepsAll(docs: seq<ChatUser>)
    ensures ExcludeCurrent(docs, None) == docs
  {
    if |docs| > 0 {
      SignedOutKeepsAll(docs[1..]);
      assert [docs[0]] + docs[1..] == docs;
    }
  }

  /** The `documents.forEach` loop: appends the kept profiles to `users`. */
  method AppendUsers(users: seq<ChatUser>, docs: seq<ChatUser>, currentUid: Option<string>) returns (r: seq<ChatUser>)
    ensures r == users + ExcludeCurrent(docs, currentUid)
  {
    r := users;
    var i := 0;
    assert docs[0..] == docs;
    while i < |docs|
      invariant 0 <= i <= |docs|
      invariant r + ExcludeCurrent(docs[i..], currentUid) == users + ExcludeCurrent(docs, currentUid)
    {
      assert docs[i..][1..] == docs[i + 1..];
      var kept := if Keeps(currentUid, docs[i]) then [docs[i]] else [];
      assert ExcludeCurrent(docs[i..], currentUid) == kept + ExcludeCurrent(docs[i + 1..], currentUid);
      assert r + ExcludeCurrent(docs[i..], currentUid) == (r + kept) + ExcludeCurrent(docs[i + 1..], currentUid);
      if Keeps(currentUid, docs[i]) {
        r := r + [docs[i]];
      }
      i := i + 1;
    }
    assert docs[|docs|..] == [];
  }

  /** `fetchAllUsers`'s callback: a failed query leaves the list as it was
      (the error is only logged); an absent snapshot appends nothing. */
  function FetchAllUsers(users: seq<ChatUser>, currentUid: Option<string>, result: QueryResult<ChatUser>): (r: seq<ChatUser>)
    ensures result.QueryFailed? ==> r == users
    ensures result.QueryDelivered? && result.snapshot.None? ==> r == users
    ensures |users| <= |r| && r[..|users|] == users
    ensures forall u :: u in r[|users|..] ==> Keeps(currentUid, u)
    ensures result.QueryDelivered? && result.snapshot.Some? ==>
      && (forall u :: u in r[|users|..] <==> u in result.snapshot.value && Keeps(currentUid, u))
      && IsSubsequence(r[|users|..], result.snapshot.value)
      && |r| - |users| <= |result.snapshot.value|
      && (forall u :: multiset(r[|users|..])[u]
                      == if Keeps(currentUid, u) then multiset(result.snapshot.value)[u] else 0)
    ensures result.QueryDelivered? && result.snapshot.Some? && currentUid.None? ==>
      r == users + result.snapshot.value
  {
    match result
    case QueryFailed(_) => users
    case QueryDelivered(None) => users
    case QueryDelivered(Some(docs)) =>
      var r := users + ExcludeCurrent(docs, currentUid);
      assert r[|users|..] == ExcludeCurrent(docs, currentUid);
      ExcludeCurrentMembers(docs, currentUid);
      ExcludeCurrentKeepsOrder(docs, currentUid);
      ExcludeCurrentCounts(docs, currentUid);
      SignedOutKeepsAll(docs);
      r
  }
}
