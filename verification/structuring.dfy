/** How the chat-completion answer becomes a summary, a speaker list and a dialogue,
    with a fixed default for every part that is absent or empty. */
module Structuring {
  import opened Optional
  import opened Js
  import opened Sessions

  const NoSummary := "No summary available."
  const NoTranscript := "No transcript content available."
  const NoContent := "No content available"
  /** Number of transcript characters quoted in the fallback client turn. */
  const ClientClip: nat := 220

  const DefaultSpeakers: seq<Speaker> := [
    Speaker("Speaker 1", "Therapist", None),
    Speaker("Speaker 2", "Client", None)
  ]

  /** The JSON object the model was asked for; every field may be missing. */
  datatype Parsed = Parsed(summary: Option<string>, speakers: Option<seq<Speaker>>, turns: Option<seq<Turn>>)

  const Absent := Parsed(None, None, None)

  /** The outcome of `JSON.parse` on the completion text. */
  datatype ParseOutcome = Unparseable | Object(fields: Parsed)

  /** The first choice's message content: missing (`?? '{}'`) or present and parsed. */
  datatype Completion = NoMessage | Content(parse: ParseOutcome)

  /** The structuring actually used, after the parse step and its silent fallback. */
  datatype Structured = Structured(summary: string, speakers: seq<Speaker>, turns: seq<Turn>)

  /** Missing content parses as `{}`, and a parse error is replaced by `{}`. */
  function ParseCompletion(c: Completion): (p: Parsed)
    ensures c.Content? && c.parse.Object? ==> p == c.parse.fields
    ensures c.NoMessage? || c.parse.Unparseable? ==> p.summary.None? && p.speakers.None? && p.turns.None?
  {
    match c
    case NoMessage => Absent
    case Content(Unparseable) => Absent
    case Content(Object(fields)) => fields
  }

  /** The user message sent with the structuring prompt. */
  function UserContent(transcript: string): (r: string)
    ensures r != ""
    ensures transcript != "" ==> r == transcript
    ensures transcript == "" ==> r == NoTranscript
  {
    OrElse(transcript, NoTranscript)
  }

  /** `parsed.summary || 'No summary available.'` */
  function ResolveSummary(s: Option<string>): (r: string)
    ensures r != ""
    ensures s.Some? && s.value != "" ==> r == s.value
    ensures s.None? || s.value == "" ==> r == NoSummary
  {
    OrElse(s.GetOr(""), NoSummary)
  }

  /** The parsed speaker list when non-empty, else the two default speakers. */
  function ResolveSpeakers(s: Option<seq<Speaker>>): (r: seq<Speaker>)
    ensures |r| > 0
    ensures s.Some? && |s.value| > 0 ==> r == s.value
    ensures s.None? || |s.value| == 0 ==> r == DefaultSpeakers
  {
    NonEmptyOr(s, DefaultSpeakers)
  }

  /** The two-line dialogue synthesised when the model gave no turns. */
  function FallbackTurns(summary: string, transcript: string): seq<Turn>
  {
    [
      Turn("Therapist", OrElse(summary, NoTranscript)),
      Turn("Client", OrElse(SliceTo(transcript, ClientClip), NoTranscript))
    ]
  }

  /** The parsed turns when non-empty, else the fallback dialogue. */
  function ResolveTurns(t: Option<seq<Turn>>, summary: string, transcript: string): (r: seq<Turn>)
    ensures |r| > 0
    ensures t.Some? && |t.value| > 0 ==> r == t.value
    ensures t.None? || |t.value| == 0 ==>
      && |r| == 2
      && r[0].speaker == "Therapist"
      && r[0].text == (if summary != "" then summary else NoTranscript)
      && r[1].speaker == "Client"
      && (transcript == "" ==> r[1].text == NoTranscript)
      && (transcript != "" ==> r[1].text == transcript[..Min(ClientClip, |transcript|)])
  {
    NonEmptyOr(t, FallbackTurns(summary, transcript))
  }

  /** `summary || transcript || 'No content available'` */
  function EmbeddingInput(summary: string, transcript: string): (r: string)
    ensures r != ""
    ensures summary != "" ==> r == summary
    ensures summary == "" && transcript != "" ==> r == transcript
    ensures summary == "" && transcript == "" ==> r == NoContent
  {
    OrElse(OrElse(summary, transcript), NoContent)
  }

  /** Default substitution applied to the parsed object. */
  function Resolve(p: Parsed, transcript: string): (s: Structured)
    ensures s.summary == ResolveSummary(p.summary)
    ensures s.speakers == ResolveSpeakers(p.speakers)
    ensures s.turns == ResolveTurns(p.turns, s.summary, transcript)
    ensures s.summary != "" && |s.speakers| > 0 && |s.turns| > 0
  {
    var summary := ResolveSummary(p.summary);
    Structured(summary, ResolveSpeakers(p.speakers), ResolveTurns(p.turns, summary, transcript))
  }

  /** The embedding is always computed from the summary: since the resolved summary
      is never empty, the transcript and placeholder alternatives are dead. */
  lemma EmbeddingInputIsSummary(p: Parsed, transcript: string)
    ensures EmbeddingInput(Resolve(p, transcript).summary, transcript) == Resolve(p, transcript).summary
  {
  }

  /** In the fallback dialogue the therapist line is exactly the summary: the
      `|| 'No transcript content available.'` alternative is dead. */
  lemma FallbackTherapistSaysSummary(p: Parsed, transcript: string)
    requires p.turns.None? || |p.turns.value| == 0
    ensures Resolve(p, transcript).turns[0] == Turn("Therapist", Resolve(p, transcript).summary)
  {
  }

  /** The resolved speaker list has two or more entries exactly when the model
      returned none or returned two or more: a one-speaker answer is kept as is. */
  lemma SpeakersAtLeastTwoIff(p: Parsed, transcript: string)
    ensures |Resolve(p, transcript).speakers| >= 2 <==> p.speakers.None? || |p.speakers.value| != 1
  {
  }

  /** An unparseable or missing answer yields exactly the defaults. */
  lemma DegradedStructuring(c: Completion, transcript: string)
    requires c.NoMessage? || c.parse.Unparseable?
    ensures Resolve(ParseCompletion(c), transcript) == Structured(
      NoSummary,
      DefaultSpeakers,
      [Turn("Therapist", NoSummary),
       Turn("Client", if transcript == "" then NoTranscript else transcript[..Min(ClientClip, |transcript|)])])
  {
  }
}
