/**
  The `/ai-assistant` request handler: it reads the question and the history
  from the request, checks that documentation is loaded and that the
  question is not blank, formats the history, builds the prompt, asks the
  language model and turns its reply (or whatever was raised on the way)
  into a JSON response.

  The handler is split at the network call.  `Prepare` runs everything up
  to the call and either responds at once or hands over the prompt;
  `Complete` maps what came back from the model service; `AiAssistant`
  composes the two.  The loaded documentation, the decoded request body and
  the outcome of the call are parameters.
 */
module Assistant {
  import opened PyValues
  import opened History
  import opened Prompt

  /** What `request.get_json()` produced: a decoded value, or an exception
      (the body was not JSON, or not declared as JSON) with its text. */
  datatype RequestBody = Unparsable(detail: string) | Parsed(data: Json)

  /** What the call to the model service produced: an exception raised by
      the HTTP client (no connection, an error status, a body that is not
      JSON) with its text, or the decoded reply. */
  datatype Upstream = TransportFailure(detail: string) | Received(result: Json)

  /** An HTTP response: its status code and its JSON body. */
  datatype Response = Response(status: nat, body: Json)

  /** The fields of a request the handler uses. */
  datatype Request = Request(question: string, history: Json)

  /** The fields of a model reply the handler passes on. */
  datatype Answer = Answer(text: Json, model: Json, tokens: Json)

  /** What a client reads back from a response. */
  datatype Outcome = Answered(answer: Answer) | Failed(message: string, status: nat)

  /** Where the handler stands once the request is read: it has its response
      already, or it needs the model's answer to `prompt`. */
  datatype Stage = Respond(response: Response) | CallModel(prompt: string)

  const DocumentationMissing: string := "Application documentation is missing or could not be loaded."
  const QuestionMissing: string := "Missing 'question' in request."

  /** `error_response(message, status)` */
  function ErrorResponse(message: string, status: nat): (r: Response)
    ensures r.status == status
    ensures Decode(r) == Some(Failed(message, status))
  {
    Response(status, JObj(map["success" := JBool(false), "error" := JStr(message)]))
  }

  /** `success_response(answer, model, tokens)`, sent with status 200. */
  function SuccessResponse(answer: Answer): (r: Response)
    ensures r.status == 200
    ensures Decode(r) == Some(Answered(answer))
  {
    Response(200, JObj(map["success" := JBool(true), "answer" := answer.text,
                           "model_used" := answer.model, "tokens_used" := answer.tokens]))
  }

  /** How a client reads a response: an error object carries `success`
      false and the error text; an answer object carries `success` true and
      the three answer fields. */
  function Decode(r: Response): Option<Outcome>
  {
    if !r.body.JObj? || "success" !in r.body.fields then None
    else
      var f := r.body.fields;
      if f["success"] == JBool(false) && f.Keys == {"success", "error"} && f["error"].JStr? then
        Some(Failed(f["error"].s, r.status))
      else if f["success"] == JBool(true) && f.Keys == {"success", "answer", "model_used", "tokens_used"} then
        Some(Answered(Answer(f["answer"], f["model_used"], f["tokens_used"])))
      else None
  }

  /** The question field, or `""` when it is missing. */
  function QuestionField(data: Json): Json
    requires data.JObj?
  {
    if "question" in data.fields then data.fields["question"] else JStr("")
  }

  /** The history field, or `[]` when it is missing. */
  function HistoryField(data: Json): Json
    requires data.JObj?
  {
    if "history" in data.fields then data.fields["history"] else JArr([])
  }

  /** `data.get("question", "").strip()` and `data.get("history", [])`. */
  function ParseRequest(data: Json): (r: Result<Request>)
    ensures r.Ok? <==> data.JObj? && QuestionField(data).JStr?
    ensures !data.JObj? ==> r == Err(AttributeError(TypeName(data), "get"))
    ensures data.JObj? && !QuestionField(data).JStr? ==>
              r == Err(AttributeError(TypeName(QuestionField(data)), "strip"))
    ensures r.Ok? ==> r.value == Request(Strip(QuestionField(data).s), HistoryField(data))
  {
    var question :- Get(data, "question", JStr(""));
    var stripped :- StripValue(question);
    // `data` is an object by now, so this lookup cannot raise
    var history := Get(data, "history", JArr([])).value;
    Ok(Request(stripped, history))
  }

  /** Everything before the call to the model: validation in the source's
      order, history formatting and the prompt. */
  function Prepare(documentation: string, body: RequestBody): Stage
  {
    match body
    case Unparsable(detail) => Respond(ErrorResponse(detail, 500))
    case Parsed(data) =>
      match ParseRequest(data)
      case Err(e) => Respond(ErrorResponse(Message(e), 500))
      case Ok(request) =>
        if documentation == "" then Respond(ErrorResponse(DocumentationMissing, 500))
        else if request.question == "" then Respond(ErrorResponse(QuestionMissing, 400))
        else
          match FormatHistory(request.history)
          case Err(e) => Respond(ErrorResponse(Message(e), 500))
          case Ok(text) => CallModel(BuildPrompt(documentation, text, request.question))
  }

  /** `result["choices"][0]["message"]["content"]`, `result.get("model")` and
      `result.get("usage", {}).get("total_tokens", 0)`, in that order. */
  function ReadReply(result: Json): Result<Answer>
  {
    var choices :- Subscript(result, Name("choices"));
    var first :- Subscript(choices, Index(0));
    var message :- Subscript(first, Name("message"));
    var content :- Subscript(message, Name("content"));
    // `result` is an object by now, so these two lookups cannot raise
    var model := Get(result, "model", JNull).value;
    var usage := Get(result, "usage", JObj(map[])).value;
    var tokens :- Get(usage, "total_tokens", JNum(0));
    Ok(Answer(content, model, tokens))
  }

  /** Everything after the call to the model. */
  function Complete(upstream: Upstream): Response
  {
    match upstream
    case TransportFailure(detail) => ErrorResponse(detail, 500)
    case Received(result) =>
      match ReadReply(result)
      case Err(e) => ErrorResponse(Message(e), 500)
      case Ok(answer) => SuccessResponse(answer)
  }

  /** The whole handler: `upstream` is used only when the model is called. */
  function AiAssistant(documentation: string, body: RequestBody, upstream: Upstream): Response
  {
    match Prepare(documentation, body)
    case Respond(response) => response
    case CallModel(_) => Complete(upstream)
  }

  // ---------------------------------------------------------------------
  // The reply of the model service.

  /** The shape of a reply the handler can read: a `choices` list whose
      first element holds a `message` object with a `content` field, and a
      `usage` field that, when present, is an object. */
  ghost predicate ReadableReply(result: Json)
  {
    && result.JObj? && "choices" in result.fields
    && result.fields["choices"].JArr? && |result.fields["choices"].items| > 0
    && result.fields["choices"].items[0].JObj?
    && "message" in result.fields["choices"].items[0].fields
    && result.fields["choices"].items[0].fields["message"].JObj?
    && "content" in result.fields["choices"].items[0].fields["message"].fields
    && ("usage" in result.fields ==> result.fields["usage"].JObj?)
  }

  /** The answer a readable reply carries: the message content, the model
      name (`None` when absent) and the total token count (0 when the usage
      or the count is absent). */
  ghost function AnswerOf(result: Json): Answer
    requires ReadableReply(result)
  {
    var f := result.fields;
    var usage := if "usage" in f then f["usage"].fields else map[];
    Answer(f["choices"].items[0].fields["message"].fields["content"],
           if "model" in f then f["model"] else JNull,
           if "total_tokens" in usage then usage["total_tokens"] else JNum(0))
  }

  /** A reply is read without raising exactly when it has the readable
      shape, and then the answer is taken from the places the handler
      names, with their defaults. */
  lemma ReadReplyIffReadable(result: Json)
    ensures ReadReply(result).Ok? <==> ReadableReply(result)
    ensures ReadReply(result).Ok? ==> ReadReply(result).value == AnswerOf(result)
  {
    var choices := Subscript(result, Name("choices"));
    if choices.Ok? {
      var first := Subscript(choices.value, Index(0));
      if first.Ok? {
        var message := Subscript(first.value, Name("message"));
        if message.Ok? {
          assert first.value.JObj?;
          var content := Subscript(message.value, Name("content"));
          if content.Ok? {
            assert message.value.JObj?;
          }
        }
      }
    }
  }

  /** The exception raised while reading a reply that is not readable:
      that of the first of `["choices"]`, `[0]`, `["message"]`,
      `["content"]` and `usage.get` to fail.  A non-empty string under
      `choices` survives `[0]` as its first character, which then cannot
      be indexed by `"message"`. */
  ghost function ReplyErrorOf(result: Json): PyError
    requires !ReadableReply(result)
  {
    if !result.JObj? || "choices" !in result.fields then SubscriptError(result, Name("choices"))
    else
      var choices := result.fields["choices"];
      if choices.JStr? && |choices.s| > 0 then SubscriptError(JStr([choices.s[0]]), Name("message"))
      else if !choices.JArr? || |choices.items| == 0 then SubscriptError(choices, Index(0))
      else
        var first := choices.items[0];
        if !first.JObj? || "message" !in first.fields then SubscriptError(first, Name("message"))
        else
          var message := first.fields["message"];
          if !message.JObj? || "content" !in message.fields then SubscriptError(message, Name("content"))
          else AttributeError(TypeName(result.fields["usage"]), "get")
  }

  /** Reading an unreadable reply raises what its first failing lookup
      raises. */
  lemma ReadReplyRaisesFirstFailure(result: Json)
    requires !ReadableReply(result)
    ensures ReadReply(result) == Err(ReplyErrorOf(result))
  {
    ReadReplyIffReadable(result);
    if result.JObj? && "choices" in result.fields {
      var choices := result.fields["choices"];
      if choices.JStr? && |choices.s| > 0 {
        assert Subscript(choices, Index(0)) == Ok(JStr([choices.s[0]]));
      } else if choices.JArr? && |choices.items| > 0 {
        var first := choices.items[0];
        if first.JObj? && "message" in first.fields {
          var message := first.fields["message"];
          if message.JObj? && "content" in message.fields {
            assert "usage" in result.fields && !result.fields["usage"].JObj?;
          }
        }
      }
    }
  }

  /** Once the model is called, a reply that is not readable is answered
      with status 500 and the text of the exception reading it raised. */
  lemma UnreadableReplyIsServerError(documentation: string, body: RequestBody, result: Json)
    requires Prepare(documentation, body).CallModel?
    requires !ReadableReply(result)
    ensures AiAssistant(documentation, body, Received(result))
            == ErrorResponse(Message(ReplyErrorOf(result)), 500)
  {
    ReadReplyRaisesFirstFailure(result);
  }

  /** A reply without `choices` is reported as the missing key. */
  lemma MissingChoicesReported(documentation: string, body: RequestBody, fields: map<string, Json>)
    requires Prepare(documentation, body).CallModel?
    requires "choices" !in fields
    ensures AiAssistant(documentation, body, Received(JObj(fields))) == ErrorResponse("'choices'", 500)
  {
    assert AiAssistant(documentation, body, Received(JObj(fields))) == Complete(Received(JObj(fields)));
    assert ReadReply(JObj(fields)) == Err(KeyError(Name("choices")));
    assert Message(KeyError(Name("choices"))) == "'choices'";
  }

  /** An empty `choices` list is reported as an index out of range. */
  lemma EmptyChoicesReported(documentation: string, body: RequestBody, fields: map<string, Json>)
    requires Prepare(documentation, body).CallModel?
    requires "choices" in fields && fields["choices"] == JArr([])
    ensures AiAssistant(documentation, body, Received(JObj(fields)))
            == ErrorResponse("list index out of range", 500)
  {
    assert AiAssistant(documentation, body, Received(JObj(fields))) == Complete(Received(JObj(fields)));
    EmptyChoicesRaise(fields);
  }

  /** The same, for the mapping of the reply alone. */
  lemma EmptyChoicesRaise(fields: map<string, Json>)
    requires "choices" in fields && fields["choices"] == JArr([])
    ensures Complete(Received(JObj(fields))) == ErrorResponse("list index out of range", 500)
  {
    assert Subscript(JObj(fields), Name("choices")) == Ok(JArr([]));
    assert Subscript(JArr([]), Index(0)) == Err(IndexError("list"));
    assert ReadReply(JObj(fields)) == Err(IndexError("list"));
    assert Message(IndexError("list")) == "list" + " index out of range" == "list index out of range";
  }

  // ---------------------------------------------------------------------
  // The order of the checks.

  /** The request is read without raising: it is an object whose question,
      when present, is a string. */
  ghost predicate ReadableRequest(body: RequestBody)
  {
    body.Parsed? && body.data.JObj? && QuestionField(body.data).JStr?
  }

  /** The stripped question of a readable request. */
  ghost function Question(body: RequestBody): string
    requires ReadableRequest(body)
  {
    Strip(QuestionField(body.data).s)
  }

  /** Without documentation every request fails with status 500, whatever
      the question, the history or the model; a readable request is told
      that the documentation is missing. */
  lemma NoDocumentationIsServerError(body: RequestBody, upstream: Upstream)
    ensures AiAssistant("", body, upstream).status == 500
    ensures ReadableRequest(body) ==>
              AiAssistant("", body, upstream) == ErrorResponse(DocumentationMissing, 500)
  {
  }

  /** Status 400 is answered exactly when documentation is loaded and the
      question of a readable request is empty or white space; the answer
      is then the missing-question error, and the model is not called. */
  lemma BlankQuestionIsClientError(documentation: string, body: RequestBody, upstream: Upstream)
    ensures AiAssistant(documentation, body, upstream).status == 400
            <==> (documentation != "" && ReadableRequest(body)
                  && forall k | 0 <= k < |QuestionField(body.data).s| :: IsSpace(QuestionField(body.data).s[k]))
    ensures AiAssistant(documentation, body, upstream).status == 400 ==>
              AiAssistant(documentation, body, upstream) == ErrorResponse(QuestionMissing, 400)
              && Prepare(documentation, body).Respond?
  {
    if ReadableRequest(body) {
      StripRemovesOuterSpace(QuestionField(body.data).s);
    }
  }

  /** The model is called exactly when documentation is loaded, the request
      is readable, its question is not blank and its history formats; the
      prompt is then built from the documentation, the formatted history
      and the stripped question, which neither starts nor ends with white
      space. */
  lemma ModelCalledIffRequestValid(documentation: string, body: RequestBody)
    ensures Prepare(documentation, body).CallModel?
            <==> (documentation != "" && ReadableRequest(body) && Question(body) != ""
                  && FormatHistory(HistoryField(body.data)).Ok?)
    ensures Prepare(documentation, body).CallModel? ==>
              var question := Question(body);
              && Prepare(documentation, body).prompt
                 == BuildPrompt(documentation, FormatHistory(HistoryField(body.data)).value, question)
              && !IsSpace(question[0]) && !IsSpace(question[|question| - 1])
  {
    if ReadableRequest(body) {
      StripRemovesOuterSpace(QuestionField(body.data).s);
    }
  }

  /** When the request is readable, documentation is loaded and the
      question is not blank, a history that does not format is reported
      with the text of the exception raised while formatting it. */
  lemma MalformedHistoryIsServerError(documentation: string, body: RequestBody, upstream: Upstream)
    requires documentation != "" && ReadableRequest(body) && Question(body) != ""
    requires FormatHistory(HistoryField(body.data)).Err?
    ensures AiAssistant(documentation, body, upstream)
            == ErrorResponse(Message(FormatHistory(HistoryField(body.data)).error), 500)
  {
  }

  /** A body that is not an object fails before anything else is looked
      at, with the text of the `AttributeError` raised by `data.get`. */
  lemma NonObjectRequestRejected(documentation: string, data: Json, upstream: Upstream)
    requires !data.JObj?
    ensures AiAssistant(documentation, Parsed(data), upstream)
            == ErrorResponse("'" + TypeName(data) + "' object has no attribute 'get'", 500)
  {
    assert ParseRequest(data) == Err(AttributeError(TypeName(data), "get"));
    var t := TypeName(data);
    assert "' object has no attribute '" + "get" + "'" == "' object has no attribute 'get'";
    assert Message(AttributeError(t, "get")) == "'" + t + "' object has no attribute 'get'";
  }

  /** A question that is not a string fails before the documentation is
      looked at, with the text of the `AttributeError` raised by `strip`. */
  lemma NonStringQuestionRejected(documentation: string, fields: map<string, Json>, upstream: Upstream)
    requires "question" in fields && !fields["question"].JStr?
    ensures AiAssistant(documentation, Parsed(JObj(fields)), upstream)
            == ErrorResponse("'" + TypeName(fields["question"]) + "' object has no attribute 'strip'", 500)
  {
    var t := TypeName(fields["question"]);
    assert ParseRequest(JObj(fields)) == Err(AttributeError(t, "strip"));
    assert "' object has no attribute '" + "strip" + "'" == "' object has no attribute 'strip'";
    assert Message(AttributeError(t, "strip")) == "'" + t + "' object has no attribute 'strip'";
  }

  /** Once the handler has responded without calling the model, the outcome
      of a call cannot change the response. */
  lemma UpstreamIgnoredWithoutCall(documentation: string, body: RequestBody, u1: Upstream, u2: Upstream)
    requires Prepare(documentation, body).Respond?
    ensures AiAssistant(documentation, body, u1) == AiAssistant(documentation, body, u2)
  {
  }

  // ---------------------------------------------------------------------
  // The result mapping.

  /** Status 200 is answered exactly when the model is called and its reply
      is readable; the response then carries the reply's answer. */
  lemma SuccessIffModelAnswered(documentation: string, body: RequestBody, upstream: Upstream)
    ensures AiAssistant(documentation, body, upstream).status == 200
            <==> Prepare(documentation, body).CallModel? && upstream.Received? && ReadableReply(upstream.result)
    ensures AiAssistant(documentation, body, upstream).status == 200 ==>
              AiAssistant(documentation, body, upstream) == SuccessResponse(AnswerOf(upstream.result))
  {
    if upstream.Received? {
      ReadReplyIffReadable(upstream.result);
    }
  }

  /** A failed call is reported with status 500 and the client's text. */
  lemma TransportFailureIsServerError(documentation: string, body: RequestBody, detail: string)
    requires Prepare(documentation, body).CallModel?
    ensures AiAssistant(documentation, body, TransportFailure(detail)) == ErrorResponse(detail, 500)
  {
  }

  /** Every response is an answer with status 200, or an error with status
      400 or 500; the `success` flag is true exactly for status 200. */
  lemma EveryResponseDecodes(documentation: string, body: RequestBody, upstream: Upstream)
    ensures var r := AiAssistant(documentation, body, upstream);
            && Decode(r).Some?
            && (Decode(r).value.Answered? <==> r.status == 200)
            && (Decode(r).value.Failed? ==> r.status == 400 || r.status == 500)
            && (r.body.fields["success"] == JBool(true) <==> r.status == 200)
  {
  }
}
