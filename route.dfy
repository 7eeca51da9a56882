/**
 * The `/api/voice` POST handler: a fixed chain of guards on the request
 * body, the user message sent to the chat-completion service, and the
 * mapping of that service's outcome to the HTTP response (status codes with
 * the meanings of section 15 of RFC 9110). The network call itself is an
 * input: `Post` is told what the upstream call would produce and reports
 * whether it made that call at all.
 */
module VoiceRoute {
  import opened Wrappers
  import opened Text
  import opened Json
  import opened Locale

  /** Longest accepted query, in UTF-16 code units, measured before trimming. */
  const MaxQueryLength := 500
  /** Appended to a Hindi query ("please answer in Hindi"). */
  const HindiSuffix := " कृपया उत्तर हिंदी में दें।"
  /** The chat model; both languages use the same one. */
  const ModelName := "meta-llama/Meta-Llama-3.1-8B-Instruct-Turbo"

  const ConfigErrorMessage := "Service configuration error"
  const QueryErrorMessage := "Query must be a non-empty string"
  const LanguageErrorMessage := "Language must be either 'en' or 'hi'"
  const LengthErrorMessage := "Query too long. Max 500 characters"
  const UpstreamErrorMessage := "Unable to process request. Please try again."
  const EmptyReplyMessage := "Received empty response from model"
  const TimeoutMessage := "Request timeout. Please try again."
  const InternalErrorMessage := "Internal server error"

  /** The request body after `req.json()`; a body that is not an object has neither field. */
  datatype Body = Unparseable | Parsed(query: Value, language: Value)

  /** What the chat-completion call produced. */
  datatype Upstream =
    | Answered(status: int, content: Value)  // status and `choices[0].message.content` (Undefined if a step below the body is missing or null)
    | AnsweredUnreadable(status: int)        // a body that is not JSON, or is JSON `null`: reading it throws
    | Aborted                                // the 25-second timer aborted the call
    | Failed                                 // any other exception from the call

  /** A query that passed every guard. */
  datatype Query = Query(text: string, language: Lang)

  /** The call made to the chat-completion service (system prompt chosen by `language`). */
  datatype ChatRequest = ChatRequest(model: string, language: Lang, userContent: string)

  datatype Response =
    | Reject(status: int, message: string)
    | Reply(text: string, language: Lang, modelUsed: string)

  /** The response returned and the upstream call made, if any. */
  datatype Handled = Handled(response: Response, sent: Option<ChatRequest>)

  /** The HTTP status of a response; a reply is sent with the default 200. */
  function Status(r: Response): int {
    if r.Reject? then r.status else 200
  }

  /** `process.env.TOGETHER_API_KEY` is set and not empty. */
  predicate KeyConfigured(apiKey: Option<string>) {
    apiKey.Some? && apiKey.value != ""
  }

  /** `response.ok`. */
  predicate IsOk(status: int) {
    200 <= status <= 299
  }

  /** The query is a string with something besides whitespace in it. */
  predicate QueryUsable(query: Value) {
    query.Str? && Trim(query.s) != []
  }

  /** The query fits the limit; the length is that of the untrimmed string. */
  predicate QueryFits(query: Value) {
    query.Str? && Utf16Length(query.s) <= MaxQueryLength
  }

  /** The language named by the body; a missing field defaults to English, `null` does not. */
  function RequestedLanguage(language: Value): Option<Lang> {
    match language
    case Undefined => Some(En)
    case Str(s) => FromCode(s)
    case NonString => None
  }

  /** The three input guards, in the order the handler applies them. */
  function Validate(query: Value, language: Value): (r: Result<Query, Response>)
    ensures r.Success? <==> QueryUsable(query) && RequestedLanguage(language).Some? && QueryFits(query)
    ensures r.Success? ==> r.value == Query(query.s, RequestedLanguage(language).value)
    ensures r.Failure? ==> r.error.Reject? && r.error.status == 422
    ensures r.Failure? ==> (r.error.message == QueryErrorMessage <==> !QueryUsable(query))
    ensures r.Failure? ==> (r.error.message == LanguageErrorMessage
                            <==> QueryUsable(query) && RequestedLanguage(language).None?)
    ensures r.Failure? ==> (r.error.message == LengthErrorMessage
                            <==> QueryUsable(query) && RequestedLanguage(language).Some? && !QueryFits(query))
  {
    if !QueryUsable(query) then Failure(Reject(422, QueryErrorMessage))
    else if RequestedLanguage(language).None? then Failure(Reject(422, LanguageErrorMessage))
    else if Utf16Length(query.s) > MaxQueryLength then Failure(Reject(422, LengthErrorMessage))
    else Success(Query(query.s, RequestedLanguage(language).value))
  }

  /** The user message: the trimmed query, with the Hindi instruction appended for Hindi. */
  function UserContent(query: string, language: Lang): (c: string)
    ensures |c| >= |Trim(query)| && c[..|Trim(query)|] == Trim(query)
    ensures language == En ==> c == Trim(query)
    ensures language == Hi ==> c[|Trim(query)|..] == HindiSuffix
  {
    if language == Hi then Trim(query) + HindiSuffix else Trim(query)
  }

  /** A usable query yields a user message with no whitespace at either end. */
  lemma UserContentUnpadded(query: string, language: Lang)
    requires Trim(query) != []
    ensures UserContent(query, language) != [] && Unpadded(UserContent(query, language))
  {
    TrimUnpadded(query);
    var t := Trim(query);
    var c := UserContent(query, language);
    assert c[0] == t[0];
    if language == Hi {
      assert c[|c| - 1] == HindiSuffix[|HindiSuffix| - 1];
    }
  }

  /** The response for the upstream outcome of an accepted query. */
  function MapUpstream(language: Lang, upstream: Upstream): (r: Response)
    ensures upstream.Answered? && !IsOk(upstream.status) ==>
              r == Reject(if upstream.status >= 500 then 503 else 400, UpstreamErrorMessage)
    ensures upstream.AnsweredUnreadable? && !IsOk(upstream.status) ==>
              r == Reject(if upstream.status >= 500 then 503 else 400, UpstreamErrorMessage)
    ensures r.Reply? <==> upstream.Answered? && IsOk(upstream.status)
                          && upstream.content.Str? && Trim(upstream.content.s) != []
    ensures r.Reply? ==> r.text == Trim(upstream.content.s) && r.text != [] && Unpadded(r.text)
                         && r.language == language && r.modelUsed == ModelName
    ensures upstream.Answered? && IsOk(upstream.status) && !upstream.content.NonString? && r.Reject? ==>
              r == Reject(500, EmptyReplyMessage)
    ensures upstream.Aborted? ==> r == Reject(408, TimeoutMessage)
    ensures upstream.Failed? || (upstream.AnsweredUnreadable? && IsOk(upstream.status))
            || (upstream.Answered? && IsOk(upstream.status) && upstream.content.NonString?) ==>
              r == Reject(500, InternalErrorMessage)
  {
    match upstream
    case Answered(status, content) =>
      if !IsOk(status) then Reject(if status >= 500 then 503 else 400, UpstreamErrorMessage)
      else (
        match content
        case Undefined => Reject(500, EmptyReplyMessage)
        case NonString => Reject(500, InternalErrorMessage)  // `.trim` of a non-string throws
        case Str(s) =>
          var reply := Trim(s);
          if reply == [] then Reject(500, EmptyReplyMessage)
          else TrimUnpadded(s); Reply(reply, language, ModelName))
    case AnsweredUnreadable(status) =>
      if !IsOk(status) then Reject(if status >= 500 then 503 else 400, UpstreamErrorMessage)
      else Reject(500, InternalErrorMessage)  // `response.json()` throws
    case Aborted => Reject(408, TimeoutMessage)
    case Failed => Reject(500, InternalErrorMessage)
  }

  /** The whole handler: key check, body parse, guards, then the upstream call. */
  function Post(apiKey: Option<string>, body: Body, upstream: Upstream): (h: Handled)
    ensures !KeyConfigured(apiKey) ==> h == Handled(Reject(500, ConfigErrorMessage), None)
    ensures KeyConfigured(apiKey) && body.Unparseable? ==> h == Handled(Reject(500, InternalErrorMessage), None)
    ensures h.sent.Some? <==> KeyConfigured(apiKey) && body.Parsed?
                              && Validate(body.query, body.language).Success?
    ensures h.sent.Some? ==>
              var q := Validate(body.query, body.language).value;
              && h.sent.value == ChatRequest(ModelName, q.language, UserContent(q.text, q.language))
              && h.response == MapUpstream(q.language, upstream)
    ensures h.sent.None? && KeyConfigured(apiKey) && body.Parsed? ==>
              h.response == Validate(body.query, body.language).error && Status(h.response) == 422
    ensures Status(h.response) in {200, 400, 408, 422, 500, 503}
  {
    if !KeyConfigured(apiKey) then Handled(Reject(500, ConfigErrorMessage), None)
    else if body.Unparseable? then Handled(Reject(500, InternalErrorMessage), None)
    else
      match Validate(body.query, body.language)
      case Failure(rejection) => Handled(rejection, None)
      case Success(q) =>
        Handled(MapUpstream(q.language, upstream),
                Some(ChatRequest(ModelName, q.language, UserContent(q.text, q.language))))
  }

  /** When no upstream call is made, the upstream outcome cannot influence the response. */
  lemma NoCallNoInfluence(apiKey: Option<string>, body: Body, u1: Upstream, u2: Upstream)
    requires Post(apiKey, body, u1).sent.None?
    ensures Post(apiKey, body, u1) == Post(apiKey, body, u2)
  {
  }

  /** A blank query is reported as such even when the language and length are also wrong. */
  lemma QueryGuardComesFirst(apiKey: Option<string>, query: Value, language: Value, upstream: Upstream)
    requires KeyConfigured(apiKey) && !QueryUsable(query)
    ensures Post(apiKey, Parsed(query, language), upstream) == Handled(Reject(422, QueryErrorMessage), None)
  {
  }

  /** An unsupported language is reported before an over-long query. */
  lemma LanguageGuardComesBeforeLength(apiKey: Option<string>, query: Value, language: Value, upstream: Upstream)
    requires KeyConfigured(apiKey) && QueryUsable(query) && RequestedLanguage(language).None?
    ensures Post(apiKey, Parsed(query, language), upstream) == Handled(Reject(422, LanguageErrorMessage), None)
  {
  }

  /** Once the query is usable and the language code supported, only the length decides. */
  lemma UsableQueryDecidedByLength(query: string, language: Lang)
    requires QueryUsable(Str(query))
    ensures Validate(Str(query), Str(Code(language)))
              == if Utf16Length(query) <= MaxQueryLength then Success(Query(query, language))
                 else Failure(Reject(422, LengthErrorMessage))
  {
    assert RequestedLanguage(Str(Code(language))) == Some(language);
  }

  /** A 500-character query is accepted and forwarded. */
  lemma ExactlyMaxAccepted(apiKey: Option<string>, upstream: Upstream)
    requires KeyConfigured(apiKey)
    ensures var q := seq(MaxQueryLength, _ => 'a');
            Post(apiKey, Parsed(Str(q), Undefined), upstream).sent
              == Some(ChatRequest(ModelName, En, q))
  {
    var q := seq(MaxQueryLength, _ => 'a');
    Utf16LengthOfBmp(q);
    assert !IsWhitespace(q[0]);
    TrimEmptyIff(q);
    TrimOfUnpadded(q);
  }

  /**
   * The limit applies to the raw query: 499 letters between two spaces are
   * refused although the trimmed text is shorter than the limit.
   */
  lemma LengthMeasuredBeforeTrim(apiKey: Option<string>, upstream: Upstream)
    requires KeyConfigured(apiKey)
    ensures var q := " " + seq(MaxQueryLength - 1, _ => 'a') + " ";
            && |Trim(q)| < MaxQueryLength
            && Post(apiKey, Parsed(Str(q), Str("hi")), upstream) == Handled(Reject(422, LengthErrorMessage), None)
  {
    var q := " " + seq(MaxQueryLength - 1, _ => 'a') + " ";
    Utf16LengthOfBmp(q);
    var m := q[1..];
    assert TrimStart(q) == m by {
      assert m[0] == 'a';
    }
    assert TrimEnd(m) == m[..|m| - 1] by {
      assert m[|m| - 1] == ' ';
      assert m[..|m| - 1][|m| - 2] == 'a';
    }
  }
}
