/** The interpreter adapter, `parse_openai_input`: the external
    interpretation service is an oracle, and what the adapter does with its
    answer is a total normalisation into a record the dispatcher reads. */
module Interpreter {
  import opened Values

  /** What `json.loads` made of the reply's content when it did not raise. */
  datatype Parsed = Object(fields: Record) | NotObject(v: Value)

  /** One answer of the interpretation service to one request. */
  datatype Response =
      /** An exception anywhere between making the call and reading the
          content of the first choice; `diag` is `str(e)`. */
    | Raised(diag: string)
      /** The content of the first choice and what parsing it gave
          (`None` when `json.loads` raised). */
    | Answered(content: string, parsed: Option<Parsed>)

  /** The configured client: absent when no API key was found, otherwise the
      service as a function of the user text and the event history. */
  datatype Client = NoClient | Connected(respond: (string, seq<string>) -> Response)

  /** One request sent to the service: the user text and the history it saw. */
  datatype Request = Request(text: string, history: seq<string>)

  const NotConfigured := "OpenAI 尚未設定"
  const ErrorPrefix := "OpenAI解析錯誤: "

  /** The record `{"action": "reply", "message": message}`. */
  function Reply(message: Value): (r: Record)
    ensures r.Keys == {"action", "message"}
    ensures r["action"] == Str("reply") && r["message"] == message
  {
    map["action" := Str("reply"), "message" := message]
  }

  /** `data.get("action") == "reply"`. */
  predicate IsReply(data: Record) {
    Get(data, "action", Null) == Str("reply")
  }

  /** The content parsed and the result is a JSON object. */
  predicate ParsedToObject(resp: Response) {
    resp.Answered? && resp.parsed.Some? && resp.parsed.value.Object?
  }

  /** The normalisation of one answer: a parsed object is handed on as it
      is; content that does not parse, or parses to something other than an
      object, becomes a reply carrying that content verbatim; an exception
      becomes a reply carrying the diagnostic. Nothing is raised. */
  function Normalize(resp: Response): (r: Record)
    ensures ParsedToObject(resp) ==> r == resp.parsed.value.fields
    ensures resp.Answered? && !ParsedToObject(resp) ==> r == Reply(Str(resp.content))
    ensures resp.Raised? ==> r == Reply(Str(ErrorPrefix + resp.diag))
    ensures !ParsedToObject(resp) ==> IsReply(r) && r["message"].Str?
  {
    match resp
    case Raised(diag) => Reply(Str(ErrorPrefix + diag))
    case Answered(content, parsed) =>
      if parsed.Some? && parsed.value.Object? then parsed.value.fields
      else Reply(Str(content))
  }

  /** The whole adapter: without a client a fixed notice, otherwise the
      normalised answer of the service to this text and history. */
  function Interpretation(client: Client, text: string, history: seq<string>): (r: Record)
    ensures client.NoClient? ==> r == Reply(Str(NotConfigured)) && Text(r["message"]) != ""
    ensures client.Connected? ==> r == Normalize(client.respond(text, history))
  {
    match client
    case NoClient => Reply(Str(NotConfigured))
    case Connected(respond) => Normalize(respond(text, history))
  }

  /** The requests the adapter sends for one call: none without a client,
      exactly one with it. */
  function RequestsFor(client: Client, text: string, history: seq<string>): (rs: seq<Request>)
    ensures |rs| == if client.NoClient? then 0 else 1
    ensures client.Connected? ==> rs[0] == Request(text, history)
  {
    if client.NoClient? then [] else [Request(text, history)]
  }

  // ----- The adapter as written -----

  /** `parse_openai_input` as written: whatever `json.loads` returned is
      handed to the dispatcher, so valid JSON that is not an object (a
      number, a string, a list) comes through as a non-dict. */
  function NormalizeAsWritten(resp: Response): (p: Parsed)
    ensures p.Object? ==> p.fields == Normalize(resp)
    ensures ParsedToObject(resp) ==> p.Object?
  {
    match resp
    case Raised(diag) => Object(Reply(Str(ErrorPrefix + diag)))
    case Answered(content, parsed) =>
      if parsed.Some? then parsed.value else Object(Reply(Str(content)))
  }

  /** `handle_action` starts with `data.get("action")`, which raises
      `AttributeError` unless `data` is a dict; `main_loop` catches only
      `KeyboardInterrupt`, so the whole session ends. */
  predicate Dispatchable(p: Parsed) {
    p.Object?
  }

  /** The content `42` parses, to an int: as written the loop then crashes,
      while the corrected normaliser degrades it to a reply. */
  lemma NonObjectContentCrashesAsWritten()
    ensures !Dispatchable(NormalizeAsWritten(Answered("42", Some(NotObject(Int(42))))))
    ensures Normalize(Answered("42", Some(NotObject(Int(42))))) == Reply(Str("42"))
  {
  }

  /** The two normalisers differ exactly where the written one crashes. */
  lemma {:induction false} AsWrittenAgreesWhenDispatchable(resp: Response)
    ensures Dispatchable(NormalizeAsWritten(resp)) <==>
            !(resp.Answered? && resp.parsed.Some? && resp.parsed.value.NotObject?)
    ensures Dispatchable(NormalizeAsWritten(resp)) ==>
            NormalizeAsWritten(resp).fields == Normalize(resp)
  {
    match resp
    case Raised(_) =>
    case Answered(_, parsed) =>
  }
}
