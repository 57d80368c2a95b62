/** The session record, its public projection, and the in-memory store. */
module Sessions {
  import opened Optional

  datatype Speaker = Speaker(name: string, role: string, note: Option<string>)

  datatype Turn = Turn(speaker: string, text: string)

  /** One stored session, embedding vector included. */
  datatype SessionEntry = SessionEntry(
    id: string,
    filename: string,
    summary: string,
    transcript: string,
    embedding: seq<real>,
    speakers: seq<Speaker>,
    turns: seq<Turn>,
    vectorized: bool,
    createdAt: string)

  /** A session as the API exposes it: every field except `embedding`. */
  datatype PublicSession = PublicSession(
    id: string,
    filename: string,
    summary: string,
    transcript: string,
    speakers: seq<Speaker>,
    turns: seq<Turn>,
    vectorized: bool,
    createdAt: string)

  /** The invariant every entry the route stores satisfies. */
  predicate WellFormed(e: SessionEntry)
  {
    && e.summary != ""
    && |e.speakers| > 0
    && |e.turns| > 0
    && e.vectorized == (|e.embedding| > 0)
  }

  /** Drops the embedding vector (`const { embedding, ...rest } = entry`). */
  function ToPublic(e: SessionEntry): (p: PublicSession)
    ensures WithEmbedding(p, e.embedding) == e
  {
    PublicSession(e.id, e.filename, e.summary, e.transcript, e.speakers, e.turns, e.vectorized, e.createdAt)
  }

  /** Puts an embedding vector back onto a public record. */
  function WithEmbedding(p: PublicSession, embedding: seq<real>): SessionEntry
  {
    SessionEntry(p.id, p.filename, p.summary, p.transcript, embedding, p.speakers, p.turns, p.vectorized, p.createdAt)
  }

  /** The projection loses exactly the embedding: the vector restores the entry. */
  lemma ProjectionRoundTrip(e: SessionEntry, p: PublicSession, v: seq<real>)
    ensures WithEmbedding(ToPublic(e), e.embedding) == e
    ensures ToPublic(WithEmbedding(p, v)) == p
  {
  }

  /** Two entries project alike exactly when they differ at most in their embedding. */
  lemma ProjectionIgnoresOnlyEmbedding(e1: SessionEntry, e2: SessionEntry)
    ensures ToPublic(e1) == ToPublic(e2) <==> e1 == e2.(embedding := e1.embedding)
  {
    if ToPublic(e1) == ToPublic(e2) {
      ProjectionRoundTrip(e1, ToPublic(e1), e1.embedding);
      ProjectionRoundTrip(e2, ToPublic(e2), e2.embedding);
    }
  }

  /** The public flag still tells whether a vector was stored, though the vector is gone.
      This only carries one conjunct of `WellFormed` through the projection; that stored
      entries are well formed comes from `Route.Assemble`, and that they stay so from
      `Prepend`, `Route.Post` and `History.Replay`. */
  lemma PublicFlagReflectsEmbedding(e: SessionEntry)
    requires WellFormed(e)
    ensures ToPublic(e).vectorized <==> |e.embedding| > 0
  {
  }

  /** The process-wide list of sessions, newest first. */
  type Store = seq<SessionEntry>

  predicate StoreWellFormed(store: Store)
  {
    forall i :: 0 <= i < |store| ==> WellFormed(store[i])
  }

  /** `sessions.unshift(entry)`. */
  function Prepend(store: Store, e: SessionEntry): (r: Store)
    ensures |r| == |store| + 1
    ensures r[0] == e
    ensures r[1..] == store
    ensures forall i :: 0 <= i < |store| ==> r[i + 1] == store[i]
    ensures StoreWellFormed(store) && WellFormed(e) ==> StoreWellFormed(r)
  {
    [e] + store
  }

  /** `sessions.map(({ embedding, ...rest }) => rest)`. */
  function Project(store: Store): (r: seq<PublicSession>)
    ensures |r| == |store|
    ensures forall i :: 0 <= i < |store| ==> r[i] == ToPublic(store[i])
  {
    if store == [] then [] else [ToPublic(store[0])] + Project(store[1..])
  }

  /** Projecting after a prepend prepends the projected entry. */
  lemma ProjectPrepend(store: Store, e: SessionEntry)
    ensures Project(Prepend(store, e)) == [ToPublic(e)] + Project(store)
  {
  }
}
