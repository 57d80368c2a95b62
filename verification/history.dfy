/** A sequence of `POST`s handled one after another against the shared store. */
module History {
  import opened Sessions
  import opened Route

  datatype Attempt = Attempt(req: Request, up: Upstream)

  predicate Succeeds(a: Attempt)
  {
    Accepted(a.req, a.up)
  }

  /** The entry a successful attempt stores. */
  function EntryOf(a: Attempt): (e: SessionEntry)
    requires Succeeds(a)
    ensures WellFormed(e) && e.id == a.up.id && e.createdAt == a.up.createdAt
  {
    Ingest(a.req, a.up).entry
  }

  function Reverse<T>(s: seq<T>): (r: seq<T>)
    ensures |r| == |s|
    ensures forall i :: 0 <= i < |s| ==> r[i] == s[|s| - 1 - i]
  {
    if s == [] then [] else Reverse(s[1..]) + [s[0]]
  }

  /** The entries of successful attempts, reversed in front of a store, put the
      entry of the last attempt first. */
  lemma ReversedEntriesInFront(attempts: seq<Attempt>, created: seq<SessionEntry>, store: Store, r: Store)
    requires forall i :: 0 <= i < |attempts| ==> Succeeds(attempts[i])
    requires |created| == |attempts|
    requires forall i :: 0 <= i < |attempts| ==> created[i] == EntryOf(attempts[i])
    requires r == Reverse(created) + store
    ensures |r| == |store| + |attempts|
    ensures forall i :: 0 <= i < |attempts| ==> r[i] == EntryOf(attempts[|attempts| - 1 - i])
    ensures r[|attempts|..] == store
  {
    assert r[..|attempts|] == Reverse(created);
  }

  /** The store after handling `attempts` in order, starting from `store`. */
  function Replay(store: Store, attempts: seq<Attempt>): (r: Store)
    ensures |store| <= |r| <= |store| + |attempts|
    ensures r[|r| - |store|..] == store
    ensures StoreWellFormed(store) ==> StoreWellFormed(r)
    decreases |attempts|
  {
    if attempts == [] then store
    else Replay(Post(store, attempts[0].req, attempts[0].up).store, attempts[1..])
  }

  /** The entries the successful attempts create, in submission order. */
  function Created(attempts: seq<Attempt>): (r: seq<SessionEntry>)
    ensures |r| <= |attempts|
    decreases |attempts|
  {
    if attempts == [] then []
    else
      var rest := Created(attempts[1..]);
      if Succeeds(attempts[0]) then [EntryOf(attempts[0])] + rest else rest
  }

  /** The store is the successful submissions' entries, most recent first, in
      front of the initial store; failed submissions leave no trace. */
  lemma {:induction false} ReplayNewestFirst(store: Store, attempts: seq<Attempt>)
    ensures Replay(store, attempts) == Reverse(Created(attempts)) + store
    decreases |attempts|
  {
    if attempts != [] {
      var a := attempts[0];
      var next := Post(store, a.req, a.up).store;
      ReplayNewestFirst(next, attempts[1..]);
      var rest := Created(attempts[1..]);
      if Succeeds(a) {
        var e := EntryOf(a);
        assert ([e] + rest)[1..] == rest;
        calc {
          Replay(store, attempts);
          Reverse(rest) + next;
          Reverse(rest) + ([e] + store);
          (Reverse(rest) + [e]) + store;
          Reverse([e] + rest) + store;
        }
      }
    }
  }

  /** When every attempt succeeds, each creates exactly one entry. */
  lemma {:induction false} CreatedAllSucceed(attempts: seq<Attempt>)
    requires forall i :: 0 <= i < |attempts| ==> Succeeds(attempts[i])
    ensures |Created(attempts)| == |attempts|
    ensures forall i :: 0 <= i < |attempts| ==>
              Created(attempts)[i] == EntryOf(attempts[i])
    decreases |attempts|
  {
    if attempts != [] {
      CreatedAllSucceed(attempts[1..]);
    }
  }

  /** After N successful `POST`s the store holds their entries in reverse order of
      submission, above the previous contents. */
  lemma SuccessfulPostsNewestFirst(store: Store, attempts: seq<Attempt>)
    requires forall i :: 0 <= i < |attempts| ==> Succeeds(attempts[i])
    ensures |Replay(store, attempts)| == |store| + |attempts|
    ensures forall i :: 0 <= i < |attempts| ==>
              Replay(store, attempts)[i] == EntryOf(attempts[|attempts| - 1 - i])
    ensures Replay(store, attempts)[|attempts|..] == store
  {
    ReplayNewestFirst(store, attempts);
    CreatedAllSucceed(attempts);
    ReversedEntriesInFront(attempts, Created(attempts), store, Replay(store, attempts));
  }

  /** `GET` after N successful `POST`s on an empty store lists exactly their
      replies, most recent first. */
  lemma GetAfterPostsNewestFirst(attempts: seq<Attempt>)
    requires forall i :: 0 <= i < |attempts| ==> Succeeds(attempts[i])
    ensures |Get(Replay([], attempts)).body.sessions| == |attempts|
    ensures forall i :: 0 <= i < |attempts| ==>
              Get(Replay([], attempts)).body.sessions[i] == ToPublic(EntryOf(attempts[|attempts| - 1 - i]))
  {
    SuccessfulPostsNewestFirst([], attempts);
  }
}
