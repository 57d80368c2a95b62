/** The `GET` and `POST` handlers of the sessions API route. The three calls to the
    AI provider are not modelled: their outcomes, together with the generated id and
    timestamp, are inputs (`Upstream`), and the requests the handler would send them
    are recorded as `Call`s. */
module Route {
  import opened Optional
  import opened Js
  import opened Sessions
  import opened Structuring

  const KeyMissing := "OPENAI_API_KEY is not set"
  const NoAudio := "No audio file received"
  const ProcessingFailed := "Failed to process session"
  const DefaultFilename := "session.wav"
  const DefaultMimeType := "audio/wav"

  /** The `file` entry of the multipart form: absent, a plain text value, or a blob
      with its (possibly missing) file name and its MIME type (`""` when unknown). */
  datatype FormField = Missing | Text(value: string) | Blob(name: Option<string>, mimeType: string)

  /** The request as the handler sees it: the configured API key, and the form,
      or `None` when the body cannot be read as form data. */
  datatype Request = Request(apiKey: Option<string>, form: Option<FormField>)

  /** The outcome of one awaited provider call. */
  datatype CallOutcome<T> = Threw | Returned(value: T)

  /** Everything the handler obtains from outside: the transcription text property,
      the completion message, the first embedding of the response (each may be
      missing), the fresh UUID and the ISO timestamp. */
  datatype Upstream = Upstream(
    transcription: CallOutcome<Option<string>>,
    completion: CallOutcome<Completion>,
    embedding: CallOutcome<Option<seq<real>>>,
    id: string,
    createdAt: string)

  /** A request sent to the AI provider, with the inputs the handler chose. */
  datatype Call = Transcribe(filename: string, mimeType: string) | Structure(userContent: string) | Embed(input: string)

  datatype Body = ErrorBody(error: string) | SessionBody(session: PublicSession) | ListBody(sessions: seq<PublicSession>)

  datatype Response = Response(status: int, body: Body)

  /** The store-independent part of a `POST`: the entry to store, or the error reply,
      with the provider requests made on the way. */
  datatype Ingested = Stored(entry: SessionEntry, calls: seq<Call>) | Rejected(response: Response, calls: seq<Call>)

  datatype PostResult = PostResult(response: Response, store: Store, calls: seq<Call>)

  /** `getOpenAI()` returns a client only for a set, non-empty key. */
  predicate Configured(key: Option<string>)
    ensures Configured(key) <==> Truthy(key.GetOr(""))
  {
    key.Some? && key.value != ""
  }

  /** The conditions under which a `POST` stores a session. */
  predicate Accepted(req: Request, up: Upstream)
  {
    && Configured(req.apiKey)
    && req.form.Some? && req.form.value.Blob?
    && up.transcription.Returned?
    && up.completion.Returned?
    && up.embedding.Returned?
  }

  function Failure(): Response
  {
    Response(500, ErrorBody(ProcessingFailed))
  }

  /** The session record built from the resolved parts. */
  function Assemble(id: string, filename: string, transcript: string, s: Structured,
                    embedding: Option<seq<real>>, createdAt: string): (e: SessionEntry)
    requires s.summary != "" && |s.speakers| > 0 && |s.turns| > 0
    ensures WellFormed(e)
    ensures e.id == id && e.filename == filename && e.transcript == transcript && e.createdAt == createdAt
    ensures e.summary == s.summary && e.speakers == s.speakers && e.turns == s.turns
    ensures embedding.Some? ==> e.embedding == embedding.value
    ensures embedding.None? ==> e.embedding == []
    ensures e.vectorized <==> embedding.Some? && |embedding.value| > 0
  {
    var v := embedding.GetOr([]);
    SessionEntry(id, filename, s.summary, transcript, v, s.speakers, s.turns, |v| > 0, createdAt)
  }

  /** The steps of `POST` up to, not including, the insertion. */
  function Ingest(req: Request, up: Upstream): (o: Ingested)
    ensures o.Stored? <==> Accepted(req, up)
    ensures o.Stored? ==> WellFormed(o.entry) && o.entry.id == up.id && o.entry.createdAt == up.createdAt
    ensures o.Rejected? ==> o.response.body.ErrorBody?
    ensures !Configured(req.apiKey) ==> o == Rejected(Response(400, ErrorBody(KeyMissing)), [])
    ensures Configured(req.apiKey) && req.form.None? ==> o == Rejected(Failure(), [])
    ensures Configured(req.apiKey) && req.form.Some? && !req.form.value.Blob? ==>
              o == Rejected(Response(400, ErrorBody(NoAudio)), [])
    ensures Configured(req.apiKey) && req.form.Some? && req.form.value.Blob? && !Accepted(req, up) ==>
              o.Rejected? && o.response == Failure() && 1 <= |o.calls| <= 3
    ensures Configured(req.apiKey) && req.form.Some? && req.form.value.Blob? ==>
              var file := req.form.value;
              var filename := if file.name.Some? && file.name.value != "" then file.name.value else DefaultFilename;
              var mimeType := if file.mimeType != "" then file.mimeType else DefaultMimeType;
              (|o.calls| >= 1 && o.calls[0] == Transcribe(filename, mimeType))
    ensures Configured(req.apiKey) && req.form.Some? && req.form.value.Blob? && up.transcription.Threw? ==>
              o.Rejected? && o.response == Failure() && |o.calls| == 1
    ensures Configured(req.apiKey) && req.form.Some? && req.form.value.Blob? && up.transcription.Returned? ==>
              var transcript := up.transcription.value.GetOr("");
              (|o.calls| >= 2 && o.calls[1] == Structure(UserContent(transcript)))
    ensures Configured(req.apiKey) && req.form.Some? && req.form.value.Blob? && up.transcription.Returned?
            && up.completion.Threw? ==>
              o.Rejected? && o.response == Failure() && |o.calls| == 2
    ensures Configured(req.apiKey) && req.form.Some? && req.form.value.Blob? && up.transcription.Returned?
            && up.completion.Returned? ==>
              var transcript := up.transcription.value.GetOr("");
              var summary := Resolve(ParseCompletion(up.completion.value), transcript).summary;
              (|o.calls| == 3 && o.calls[2] == Embed(summary))
  {
    if !Configured(req.apiKey) then
      Rejected(Response(400, ErrorBody(KeyMissing)), [])
    else if req.form.None? then
      Rejected(Failure(), [])
    else if !req.form.value.Blob? then
      Rejected(Response(400, ErrorBody(NoAudio)), [])
    else
      var file := req.form.value;
      var filename := OrElse(file.name.GetOr(""), DefaultFilename);
      var transcribe := Transcribe(filename, OrElse(file.mimeType, DefaultMimeType));
      match up.transcription
      case Threw => Rejected(Failure(), [transcribe])
      case Returned(text) =>
        var transcript := text.GetOr("");
        var structure := Structure(UserContent(transcript));
        match up.completion
        case Threw => Rejected(Failure(), [transcribe, structure])
        case Returned(completion) =>
          var s := Resolve(ParseCompletion(completion), transcript);
          var embed := Embed(EmbeddingInput(s.summary, transcript));
          match up.embedding
          case Threw => Rejected(Failure(), [transcribe, structure, embed])
          case Returned(v) =>
            Stored(Assemble(up.id, filename, transcript, s, v, up.createdAt), [transcribe, structure, embed])
  }

  /** `POST /api/sessions` against the current store. */
  function Post(store: Store, req: Request, up: Upstream): (r: PostResult)
    ensures r.response.status == 201 <==> Accepted(req, up)
    ensures r.response.status in {201, 400, 500}
    ensures Accepted(req, up) ==>
              && r.store == Prepend(store, Ingest(req, up).entry)
              && r.response.body == SessionBody(ToPublic(r.store[0]))
    ensures !Accepted(req, up) ==> r.store == store && r.response.body.ErrorBody?
    ensures StoreWellFormed(store) ==> StoreWellFormed(r.store)
  {
    match Ingest(req, up)
    case Stored(e, calls) => PostResult(Response(201, SessionBody(ToPublic(e))), Prepend(store, e), calls)
    case Rejected(response, calls) => PostResult(response, store, calls)
  }

  /** `GET /api/sessions`: every stored session, in store order, without its vector. */
  function Get(store: Store): (r: Response)
    ensures r.status == 200 && r.body.ListBody?
    ensures |r.body.sessions| == |store|
    ensures forall i :: 0 <= i < |store| ==> r.body.sessions[i] == ToPublic(store[i])
  {
    Response(200, ListBody(Project(store)))
  }

  /** Status codes: 400 for a configuration or input error, 500 for a failure
      after the file was accepted (or an unreadable form), 201 otherwise. */
  lemma StatusClassification(store: Store, req: Request, up: Upstream)
    ensures Post(store, req, up).response.status == 400 <==>
              !Configured(req.apiKey) || (req.form.Some? && !req.form.value.Blob?)
    ensures Post(store, req, up).response.status == 500 <==>
              Configured(req.apiKey) && (req.form.None? || (req.form.value.Blob? && !Accepted(req, up)))
  {
  }

  /** The record a successful `POST` stores, field by field, and the provider
      requests it made; the embedding is requested for the summary. */
  lemma CreatedSession(store: Store, req: Request, up: Upstream)
    requires Accepted(req, up)
    ensures var e := Post(store, req, up).store[0];
            var filename := if req.form.value.name.Some? && req.form.value.name.value != ""
                            then req.form.value.name.value else DefaultFilename;
            var transcript := up.transcription.value.GetOr("");
            var s := Resolve(ParseCompletion(up.completion.value), transcript);
            && e.id == up.id
            && e.createdAt == up.createdAt
            && e.filename == filename
            && e.transcript == transcript
            && e.summary == s.summary
            && e.speakers == s.speakers
            && e.turns == s.turns
            && e.embedding == up.embedding.value.GetOr([])
            && (e.vectorized <==> |e.embedding| > 0)
            && Post(store, req, up).calls == [
                 Transcribe(filename, if req.form.value.mimeType != "" then req.form.value.mimeType else DefaultMimeType),
                 Structure(UserContent(transcript)),
                 Embed(e.summary)]
  {
    var transcript := up.transcription.value.GetOr("");
    EmbeddingInputIsSummary(ParseCompletion(up.completion.value), transcript);
  }

  /** A failed `POST` is invisible to a later `GET`. */
  lemma FailedPostUnobservable(store: Store, req: Request, up: Upstream)
    requires Post(store, req, up).response.status != 201
    ensures Get(Post(store, req, up).store) == Get(store)
  {
  }

  /** After a successful `POST`, `GET` lists the `POST` reply first, then the
      earlier listing unchanged. */
  lemma PostThenGet(store: Store, req: Request, up: Upstream)
    requires Accepted(req, up)
    ensures Get(Post(store, req, up).store).body.sessions ==
              [Post(store, req, up).response.body.session] + Get(store).body.sessions
  {
    ProjectPrepend(store, Ingest(req, up).entry);
  }

  /** With an unusable completion the stored session carries exactly the defaults:
      the placeholder summary, the two default speakers, and the fallback dialogue
      built from that summary and the clipped transcript. */
  lemma DegradedPost(store: Store, req: Request, up: Upstream)
    requires Accepted(req, up)
    requires up.completion.value.NoMessage? || up.completion.value.parse.Unparseable?
    ensures var e := Post(store, req, up).store[0];
            && e.summary == NoSummary
            && e.speakers == DefaultSpeakers
            && |e.turns| == 2
            && e.turns[0] == Turn("Therapist", NoSummary)
            && var t := up.transcription.value.GetOr("");
               e.turns[1] == Turn("Client", if t == "" then NoTranscript else t[..Min(ClientClip, |t|)])
  {
    DegradedStructuring(up.completion.value, up.transcription.value.GetOr(""));
  }
}
