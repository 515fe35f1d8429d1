/**
 * The feedback engine of services/gemini.ts: the conversation it sends to
 * the scoring model, the reply shape it declares (`FEEDBACK_SCHEMA`), and
 * the parse step that either yields the reply or throws. The network call
 * and the JSON text parser are parameters: `generate` maps the request
 * contents to the reply text (or fails), `parse` maps text to a JSON value
 * (or fails).
 */
module Gemini {
  import opened Types

  /** A parsed JSON value; numbers are integers in this model. */
  datatype Json =
    | JNull
    | JBool(b: bool)
    | JNumber(n: int)
    | JString(s: string)
    | JArray(items: seq<Json>)
    | JObject(fields: map<string, Json>)

  // ---------------------------------------------------------------------
  // The request: `contents`

  datatype Part = Part(text: string)

  /** One message of the request, with the wire role `"user"` or `"model"`. */
  datatype Content = Content(role: string, parts: seq<Part>)

  const ActionPrefix := "User Action: "

  /** `h.role === 'user' ? 'user' : 'model'`. */
  function RoleName(role: Role): (r: string)
    ensures r == "user" <==> role == User
    ensures r == "model" <==> role == Model
  {
    match role
    case User => "user"
    case Model => "model"
  }

  /** One history entry as a request message: its role and its text as the single part. */
  function MessageContent(m: ChatMessage): (c: Content)
    ensures c.role == RoleName(m.role) && c.parts == [Part(m.content)]
  {
    Content(RoleName(m.role), [Part(m.content)])
  }

  /** `history.map(...)`: every history entry in order, as a request message. */
  function HistoryContents(history: seq<ChatMessage>): (r: seq<Content>)
    ensures |r| == |history|
    ensures forall i | 0 <= i < |history| :: r[i] == MessageContent(history[i])
  {
    if history == [] then [] else [MessageContent(history[0])] + HistoryContents(history[1..])
  }

  /** The message that carries the new action, always from the user. */
  function ActionContent(userAction: string): Content
  {
    Content("user", [Part(ActionPrefix + userAction)])
  }

  /** `contents`: the replayed history followed by the new action. */
  function BuildContents(history: seq<ChatMessage>, userAction: string): (r: seq<Content>)
    ensures |r| == |history| + 1
    ensures r[..|history|] == HistoryContents(history)
    ensures r[|history|].role == "user"
    ensures r[|history|].parts == [Part("User Action: " + userAction)]
  {
    HistoryContents(history) + [ActionContent(userAction)]
  }

  /** Reads a request message back as a history entry; any role other than `"user"` is the model's. */
  function MessageOf(c: Content): Option<ChatMessage>
  {
    if |c.parts| == 1 then Some(ChatMessage(if c.role == "user" then User else Model, c.parts[0].text))
    else None
  }

  /** Reads a request back as a history, or `None` if some message does not have exactly one part. */
  function HistoryOf(contents: seq<Content>): Option<seq<ChatMessage>>
  {
    if contents == [] then Some([])
    else
      match (MessageOf(contents[0]), HistoryOf(contents[1..]))
      case (Some(m), Some(rest)) => Some([m] + rest)
      case _ => None
  }

  /** The history is recoverable from its request messages: order, roles and texts are kept. */
  lemma {:induction false} HistoryContentsRoundTrip(history: seq<ChatMessage>)
    ensures HistoryOf(HistoryContents(history)) == Some(history)
  {
    if history != [] {
      var cs := HistoryContents(history);
      assert cs[1..] == HistoryContents(history[1..]);
      HistoryContentsRoundTrip(history[1..]);
      assert MessageOf(cs[0]) == Some(history[0]);
      assert [history[0]] + history[1..] == history;
    }
  }

  /**
   * The request holds the history, recoverable unchanged from its first
   * `|history|` messages, and then the action as a user message.
   */
  lemma BuildContentsRoundTrip(history: seq<ChatMessage>, userAction: string)
    ensures var r := BuildContents(history, userAction);
      && HistoryOf(r[..|history|]) == Some(history)
      && MessageOf(r[|history|]) == Some(ChatMessage(User, ActionPrefix + userAction))
  {
    HistoryContentsRoundTrip(history);
  }

  // ---------------------------------------------------------------------
  // The declared reply shape: `FEEDBACK_SCHEMA`

  const SeverityNames: seq<string> := ["Positive", "Neutral", "Negative", "Critical", "Advisory"]

  /** The wire name of a severity grade. */
  function SeverityName(v: FeedbackSeverity): (r: string)
    ensures r in SeverityNames
  {
    match v
    case Positive => "Positive"
    case Neutral => "Neutral"
    case Negative => "Negative"
    case Critical => "Critical"
    case Advisory => "Advisory"
  }

  /** The severity grade a wire name stands for, if it is one of the five. */
  function ParseSeverity(t: string): (r: Option<FeedbackSeverity>)
    ensures r.Some? <==> t in SeverityNames
    ensures r.Some? ==> SeverityName(r.value) == t
  {
    if t == "Positive" then Some(Positive)
    else if t == "Neutral" then Some(Neutral)
    else if t == "Negative" then Some(Negative)
    else if t == "Critical" then Some(Critical)
    else if t == "Advisory" then Some(Advisory)
    else None
  }

  /** Wire names and grades correspond one to one. */
  lemma SeverityNameRoundTrip(v: FeedbackSeverity, t: string)
    ensures ParseSeverity(SeverityName(v)) == Some(v)
    ensures ParseSeverity(t) == Some(v) <==> SeverityName(v) == t
  {
  }

  const DimensionRequired: seq<string> := ["dimension", "score", "explanation", "severity", "recommendations"]

  const FeedbackRequired: seq<string> := ["aiResponse", "feedbackSummary", "severity", "detailedFeedback", "competenceImpact"]

  predicate HasString(fields: map<string, Json>, key: string)
  {
    key in fields && fields[key].JString?
  }

  predicate HasNumber(fields: map<string, Json>, key: string)
  {
    key in fields && fields[key].JNumber?
  }

  /** A string from the severity enumeration. */
  predicate HasSeverity(fields: map<string, Json>, key: string)
  {
    key in fields && fields[key].JString? && fields[key].s in SeverityNames
  }

  predicate HasStringArray(fields: map<string, Json>, key: string)
  {
    && key in fields && fields[key].JArray?
    && forall i | 0 <= i < |fields[key].items| :: fields[key].items[i].JString?
  }

  /**
   * One `detailedFeedback` item of the schema: an object with all five
   * required properties of the declared types. The -5..+5 range of `score`
   * is only a description in the schema, so it is not part of the shape.
   */
  predicate DimensionWellFormed(j: Json)
  {
    && j.JObject?
    && HasString(j.fields, "dimension")
    && HasNumber(j.fields, "score")
    && HasString(j.fields, "explanation")
    && HasSeverity(j.fields, "severity")
    && HasStringArray(j.fields, "recommendations")
  }

  /**
   * A reply of the declared shape: an object with all five required
   * properties of the declared types, every dimension well formed. The
   * -25..+25 range of `competenceImpact` is only a description.
   */
  predicate WellFormed(j: Json)
  {
    && j.JObject?
    && HasString(j.fields, "aiResponse")
    && HasString(j.fields, "feedbackSummary")
    && HasSeverity(j.fields, "severity")
    && "detailedFeedback" in j.fields && j.fields["detailedFeedback"].JArray?
    && (forall i | 0 <= i < |j.fields["detailedFeedback"].items| ::
          DimensionWellFormed(j.fields["detailedFeedback"].items[i]))
    && HasNumber(j.fields, "competenceImpact")
  }

  /** A well-formed reply carries every required property, and so does each of its dimensions. */
  lemma WellFormedHasRequired(j: Json)
    requires WellFormed(j)
    ensures forall key | key in FeedbackRequired :: key in j.fields
    ensures forall d | d in j.fields["detailedFeedback"].items ::
      d.JObject? && forall key | key in DimensionRequired :: key in d.fields
  {
  }

  // The typed view of a well-formed reply, and its encoding back to JSON.

  function DimensionOf(j: Json): DetailedFeedbackDimension
    requires DimensionWellFormed(j)
  {
    var f := j.fields;
    var recs := f["recommendations"].items;
    DetailedFeedbackDimension(
      f["dimension"].s, f["score"].n, f["explanation"].s,
      ParseSeverity(f["severity"].s).value,
      seq(|recs|, i requires 0 <= i < |recs| => recs[i].s))
  }

  /**
   * The `CompleteInteractionFeedback` a JSON value denotes when it has the
   * declared shape; the source's cast gives the fields exactly these values.
   */
  function FeedbackOf(j: Json): (r: Option<CompleteInteractionFeedback>)
    ensures r.Some? <==> WellFormed(j)
  {
    if WellFormed(j) then
      var f := j.fields;
      var dims := f["detailedFeedback"].items;
      Some(CompleteInteractionFeedback(
        f["aiResponse"].s, f["feedbackSummary"].s,
        ParseSeverity(f["severity"].s).value,
        seq(|dims|, i requires 0 <= i < |dims| => DimensionOf(dims[i])),
        f["competenceImpact"].n))
    else None
  }

  function DimensionJson(d: DetailedFeedbackDimension): Json
  {
    JObject(map[
      "dimension" := JString(d.dimension),
      "score" := JNumber(d.score),
      "explanation" := JString(d.explanation),
      "severity" := JString(SeverityName(d.severity)),
      "recommendations" := JArray(seq(|d.recommendations|, i requires 0 <= i < |d.recommendations| =>
        JString(d.recommendations[i])))])
  }

  /** A feedback value as the JSON object of the declared shape. */
  function FeedbackJson(f: CompleteInteractionFeedback): Json
  {
    JObject(map[
      "aiResponse" := JString(f.aiResponse),
      "feedbackSummary" := JString(f.feedbackSummary),
      "severity" := JString(SeverityName(f.severity)),
      "detailedFeedback" := JArray(seq(|f.detailedFeedback|, i requires 0 <= i < |f.detailedFeedback| =>
        DimensionJson(f.detailedFeedback[i]))),
      "competenceImpact" := JNumber(f.competenceImpact)])
  }

  lemma DimensionRoundTrip(d: DetailedFeedbackDimension)
    ensures DimensionWellFormed(DimensionJson(d))
    ensures DimensionOf(DimensionJson(d)) == d
  {
    var j := DimensionJson(d);
    var recs := j.fields["recommendations"].items;
    assert seq(|recs|, i requires 0 <= i < |recs| => recs[i].s) == d.recommendations;
  }

  /** Every feedback value has the declared shape when encoded, and reads back unchanged. */
  lemma FeedbackRoundTrip(f: CompleteInteractionFeedback)
    ensures WellFormed(FeedbackJson(f))
    ensures FeedbackOf(FeedbackJson(f)) == Some(f)
  {
    var j := FeedbackJson(f);
    var dims := j.fields["detailedFeedback"].items;
    forall i | 0 <= i < |dims|
      ensures DimensionWellFormed(dims[i]) && DimensionOf(dims[i]) == f.detailedFeedback[i]
    {
      DimensionRoundTrip(f.detailedFeedback[i]);
    }
    assert seq(|dims|, i requires 0 <= i < |dims| => DimensionOf(dims[i])) == f.detailedFeedback;
  }

  /**
   * The typed view keeps the numbers as they are: `competenceImpact` and
   * every dimension `score` come straight from the JSON, with no range check.
   */
  lemma FeedbackOfKeepsNumbers(j: Json)
    requires WellFormed(j)
    ensures var f := FeedbackOf(j).value;
      && f.competenceImpact == j.fields["competenceImpact"].n
      && |f.detailedFeedback| == |j.fields["detailedFeedback"].items|
      && forall i | 0 <= i < |f.detailedFeedback| ::
           f.detailedFeedback[i].score == j.fields["detailedFeedback"].items[i].fields["score"].n
  {
  }

  /** An impact of 26 and a dimension score of 9 are within the declared shape. */
  lemma OutOfRangeNumbersAreWellFormed()
    ensures var d := DetailedFeedbackDimension("Etiquette", 9, "", Neutral, []);
      var f := CompleteInteractionFeedback("", "", Advisory, [d], 26);
      WellFormed(FeedbackJson(f)) && FeedbackOf(FeedbackJson(f)) == Some(f)
  {
    FeedbackRoundTrip(CompleteInteractionFeedback("", "", Advisory,
      [DetailedFeedbackDimension("Etiquette", 9, "", Neutral, [])], 26));
  }

  // ---------------------------------------------------------------------
  // The reply: parse or throw

  const InvalidResponseMessage := "Invalid response from AI agent."

  datatype InteractionError =
    | RequestFailed                      // the awaited library call itself rejected
    | InvalidResponse(message: string)   // the reply text did not parse

  /** `response.text || '{}'`: an absent or empty reply text is read as the empty object. */
  function ResponseText(text: string): (r: string)
    ensures text == "" ==> r == "{}"
    ensures text != "" ==> r == text
  {
    if text == "" then "{}" else text
  }

  /**
   * `processInteraction`: send the history and the action, parse the reply
   * text, and return the parsed value as it is (the source's cast performs
   * no check); a text that does not parse throws the invalid-response error.
   */
  function ProcessInteraction(
    userAction: string,
    history: seq<ChatMessage>,
    generate: seq<Content> -> Option<string>,
    parse: string -> Option<Json>): (r: Result<Json, InteractionError>)
    ensures generate(BuildContents(history, userAction)).None? ==> r == Failure(RequestFailed)
    ensures generate(BuildContents(history, userAction)).Some? ==>
      var text := ResponseText(generate(BuildContents(history, userAction)).value);
      && (r.Success? <==> parse(text).Some?)
      && (r.Success? ==> parse(text) == Some(r.value))
      && (r.Failure? ==> r.error == InvalidResponse("Invalid response from AI agent."))
  {
    match generate(BuildContents(history, userAction))
    case None => Failure(RequestFailed)
    case Some(text) =>
      match parse(ResponseText(text))
      case None => Failure(InvalidResponse(InvalidResponseMessage))
      case Some(data) => Success(data)
  }

  /** Whatever parses is returned, in range or not, well formed or not. */
  lemma NoValidationOfParsedReply(
    userAction: string, history: seq<ChatMessage>,
    generate: seq<Content> -> Option<string>, parse: string -> Option<Json>, data: Json)
    requires generate(BuildContents(history, userAction)).Some?
    requires parse(ResponseText(generate(BuildContents(history, userAction)).value)) == Some(data)
    ensures ProcessInteraction(userAction, history, generate, parse) == Success(data)
  {
  }

  /**
   * The only errors are the failed call and the invalid-response error with
   * its fixed message; the call fails exactly when the engine gives no reply.
   */
  lemma InteractionErrors(
    userAction: string, history: seq<ChatMessage>,
    generate: seq<Content> -> Option<string>, parse: string -> Option<Json>)
    ensures var r := ProcessInteraction(userAction, history, generate, parse);
      && (r.Failure? ==> r.error == RequestFailed || r.error == InvalidResponse("Invalid response from AI agent."))
      && (r == Failure(RequestFailed) <==> generate(BuildContents(history, userAction)).None?)
  {
  }

  /** An empty reply text is read as the empty object `{}`. */
  lemma EmptyReplyReadAsEmptyObject(
    userAction: string, history: seq<ChatMessage>,
    generate: seq<Content> -> Option<string>, parse: string -> Option<Json>)
    requires generate(BuildContents(history, userAction)) == Some("")
    ensures ProcessInteraction(userAction, history, generate, parse)
            == if parse("{}").Some? then Success(parse("{}").value)
               else Failure(InvalidResponse(InvalidResponseMessage))
  {
  }

  /**
   * The engine is consulted on one request only: two engines that answer
   * that request alike give the same outcome, whatever else they do.
   */
  lemma OnlyTheBuiltRequestMatters(
    userAction: string, history: seq<ChatMessage>,
    generate: seq<Content> -> Option<string>, generate': seq<Content> -> Option<string>,
    parse: string -> Option<Json>)
    requires generate(BuildContents(history, userAction)) == generate'(BuildContents(history, userAction))
    ensures ProcessInteraction(userAction, history, generate, parse)
            == ProcessInteraction(userAction, history, generate', parse)
  {
  }
}
