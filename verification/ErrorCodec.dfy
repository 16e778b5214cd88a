/**
 * Failures crossing the process boundary: three encoders on the server and the
 * one decoder in the remote client.
 */
module ErrorCodec {
  import opened Optional
  import opened Text

  datatype Error = Error(class_: string, code: string, message: string, retryable: bool)

  /** What errors.As makes of an error value: a coded error somewhere in its chain, or none. */
  datatype Failure = Coded(error: Error) | Uncoded

  datatype TaskResult = TaskResult(errorClass: string, errorCode: string, retryable: bool)

  /** The three JSON objects a failing endpoint answers with. */
  datatype Body =
    | RepositoryBody(code: string, class_: string, retryable: bool)
    | PlainBody(code: string, message: string)
    | ResultBody(result: TaskResult)

  datatype Response = Response(status: nat, body: Body)

  const REPOSITORY_FAILED := "agent.saas.repository_failed"
  const CONVERSATION_INTERNAL := "agent.conversation.internal"
  const CONVERSATION_PREFIX := "agent.conversation."

  /** The six classes that name a domain failure. */
  predicate Domain(c: string) {
    c == "bad_request" || c == "forbidden" || c == "not_found" || c == "conflict" || c == "rate_limited" ||
        c == "unavailable"
  }

  /** 500 stands for every class that is not a domain class. */
  function StatusOf(c: string): (s: nat)
    ensures s != 500 <==> Domain(c)
    ensures 400 <= s <= 503
  {
    if c == "bad_request" then 400
    else if c == "forbidden" then 403
    else if c == "not_found" then 404
    else if c == "conflict" then 409
    else if c == "rate_limited" then 429
    else if c == "unavailable" then 503
    else 500
  }

  function ClassOf(status: nat): (c: string)
    ensures Domain(c) || c == "internal"
  {
    match status
    case 400 => "bad_request"
    case 403 => "forbidden"
    case 404 => "not_found"
    case 409 => "conflict"
    case 429 => "rate_limited"
    case 503 => "unavailable"
    case _ => "internal"
  }

  lemma ClassRoundTrip(c: string)
    ensures ClassOf(StatusOf(c)) == if Domain(c) then c else "internal"
  {
  }

  // ---------- encoders ----------

  function RepositoryResponse(f: Failure): (r: Response) {
    if f.Coded? && Domain(f.error.class_)
    then Response(StatusOf(f.error.class_), RepositoryBody(f.error.code, f.error.class_, f.error.retryable))
    else Response(500, RepositoryBody(REPOSITORY_FAILED, "internal", false))
  }

  method WriteRepositoryError(f: Failure) returns (r: Response)
    ensures r == RepositoryResponse(f)
  {
    var status, code, class_, retryable := 500, REPOSITORY_FAILED, "internal", false;
    if f.Coded? {
      match f.error.class_ {
        case "bad_request" => status := 400;
        case "forbidden" => status := 403;
        case "not_found" => status := 404;
        case "conflict" => status := 409;
        case "rate_limited" => status := 429;
        case "unavailable" => status := 503;
        case _ =>
      }
      if status != 500 {
        code, class_, retryable := f.error.code, f.error.class_, f.error.retryable;
      }
    }
    return Response(status, RepositoryBody(code, class_, retryable));
  }

  function ConversationResponse(f: Failure): (r: Response) {
    if f.Coded? then Response(StatusOf(f.error.class_), PlainBody(f.error.code, ""))
    else Response(500, PlainBody(CONVERSATION_INTERNAL, ""))
  }

  method WriteConversationError(f: Failure) returns (r: Response)
    ensures r == ConversationResponse(f)
  {
    var status, code := 500, CONVERSATION_INTERNAL;
    if f.Coded? {
      code := f.error.code;
      match f.error.class_ {
        case "bad_request" => status := 400;
        case "forbidden" => status := 403;
        case "not_found" => status := 404;
        case "conflict" => status := 409;
        case "rate_limited" => status := 429;
        case "unavailable" => status := 503;
        case _ =>
      }
    }
    return Response(status, PlainBody(code, ""));
  }

  /** A runner's failing result; 422 tells the client not to try again. */
  function RunnerResponse(result: TaskResult): (r: Response) {
    Response(if result.errorClass == "provider_http" && !result.retryable then 422 else 502, ResultBody(result))
  }

  // ---------- the decoder ----------

  predicate RetryableStatus(status: nat) {
    status == 429 || status >= 500
  }

  /** The members code, message, class and retryable of a body, as far as it has them. */
  function Members(body: Body): (r: (string, string, string, Option<bool>)) {
    match body
    case RepositoryBody(code, c, retryable) => (code, "", c, Some(retryable))
    case PlainBody(code, message) => (code, message, "", None)
    case ResultBody(result) => ("", "", "", Some(result.retryable))
  }

  function HttpFailure(status: nat): (e: Error) {
    Error("saas_http", "agent.saas.http_" + Decimal(status), "Agent SaaS returned HTTP " + Decimal(status),
        RetryableStatus(status))
  }

  /** The client's reading of an answer outside 2xx; `task` says the caller expects a task result. */
  function Decode(task: bool, r: Response): (e: Error)
    requires r.status / 100 != 2
  {
    if task && r.body.ResultBody? && !Blank(r.body.result.errorCode) then
      Error(TrimSpace(r.body.result.errorClass), TrimSpace(r.body.result.errorCode), "",
            r.body.result.retryable || RetryableStatus(r.status))
    else
      var (code, message, c, retryable) := Members(r.body);
      if code == "" then HttpFailure(r.status)
      else if (Domain(c) || c == "internal") && StatusOf(c) == r.status && retryable.Some?
      then Error(c, code, "", retryable.value)
      else if HasPrefix(code, CONVERSATION_PREFIX) then Error(ClassOf(r.status), code, "", false)
      else Error("saas_http", code, message, RetryableStatus(r.status))
  }

  // ---------- repository failures ----------

  /** What a repository failure means to a client, in any number of processes away. */
  function Projection(f: Failure): (e: Error) {
    if f.Coded? && Domain(f.error.class_) then f.error.(message := "")
    else Error("internal", REPOSITORY_FAILED, "", false)
  }

  /** A domain failure without a code is the one thing the boundary cannot carry. */
  predicate Nameless(f: Failure) {
    f.Coded? && Domain(f.error.class_) && f.error.code == ""
  }

  lemma RepositoryRoundTrip(f: Failure, task: bool)
    ensures Decode(task, RepositoryResponse(f)) == Projection(f) <==> !Nameless(f)
  {
    if f.Coded? && Domain(f.error.class_) && f.error.code == "" {
      assert Decode(task, RepositoryResponse(f)).class_ == "saas_http";
    }
  }

  /** The failure after crossing `n` repository boundaries. */
  function Hops(f: Failure, n: nat): (r: Failure) {
    if n == 0 then f else Coded(Decode(false, RepositoryResponse(Hops(f, n - 1))))
  }

  lemma ProjectionIsFinal(f: Failure)
    ensures Projection(Coded(Projection(f))) == Projection(f)
    ensures !Nameless(f) ==> !Nameless(Coded(Projection(f)))
  {
  }

  /** From the first boundary on, nothing changes any more. */
  lemma {:induction false} HopsSettle(f: Failure, n: nat)
    requires !Nameless(f) && n >= 1
    ensures Hops(f, n) == Coded(Projection(f))
  {
    if n == 1 {
      assert Hops(f, 0) == f;
      RepositoryRoundTrip(f, false);
    } else {
      HopsSettle(f, n - 1);
      ProjectionIsFinal(f);
      RepositoryRoundTrip(Coded(Projection(f)), false);
    }
  }

  /** One boundary settles a failure exactly when it has a name; two settle every failure. */
  lemma OneHopSettlesExactly(f: Failure, n: nat)
    requires n >= 2
    ensures Hops(f, n) == Hops(f, 2)
    ensures Hops(f, n) == Hops(f, 1) <==> !Nameless(f)
  {
    if Nameless(f) {
      var g := Hops(f, 1);
      assert Hops(f, 0) == f;
      assert g.error.class_ == "saas_http";
      SplitHops(f, n - 1);
      HopsSettle(g, n - 1);
      SplitHops(f, 1);
      HopsSettle(g, 1);
    } else {
      HopsSettle(f, n);
      HopsSettle(f, 2);
      HopsSettle(f, 1);
    }
  }

  lemma {:induction false} SplitHops(f: Failure, n: nat)
    ensures Hops(f, n + 1) == Hops(Hops(f, 1), n)
  {
    hide Decode, RepositoryResponse;
    if n > 0 {
      SplitHops(f, n - 1);
    }
  }

  // ---------- conversation failures ----------

  /** A code with the conversation prefix arrives with its class; any other code loses a domain class. */
  lemma ConversationRoundTrip(e: Error, task: bool)
    requires e.code != ""
    ensures var d := Decode(task, ConversationResponse(Coded(e)));
            && d.code == e.code && d.message == ""
            && (HasPrefix(e.code, CONVERSATION_PREFIX) ==>
                 d == Error(if Domain(e.class_) then e.class_ else "internal", e.code, "", false))
            && (Domain(e.class_) ==> (d.class_ == e.class_ <==> HasPrefix(e.code, CONVERSATION_PREFIX)))
  {
    ClassRoundTrip(e.class_);
  }

  function ConversationHops(f: Failure, n: nat): (r: Failure) {
    if n == 0 then f else Coded(Decode(false, ConversationResponse(ConversationHops(f, n - 1))))
  }

  /** A failure as it settles behind conversation boundaries. */
  function SettledConversation(f: Failure): (e: Error) {
    if f.Uncoded? then Error("internal", CONVERSATION_INTERNAL, "", false)
    else if HasPrefix(f.error.code, CONVERSATION_PREFIX)
    then Error(if Domain(f.error.class_) then f.error.class_ else "internal", f.error.code, "", false)
    else if f.error.code == "" then Error("saas_http", HttpFailure(StatusOf(f.error.class_)).code, "", true)
    else Error("saas_http", f.error.code, "", true)
  }

  /** Unprefixed codes become retryable behind a second boundary, whatever their class was. */
  lemma {:induction false} ConversationHopsSettle(f: Failure, n: nat)
    requires n >= 2
    ensures ConversationHops(f, n) == Coded(SettledConversation(f))
  {
    var one := ConversationHops(f, 1);
    assert ConversationHops(f, 0) == f;
    if n == 2 {
      FirstConversationHop(f);
    } else {
      ConversationHopsSettle(f, n - 1);
      SettledStays(f);
    }
  }

  lemma UnprefixedHttp(status: nat)
    ensures !HasPrefix(HttpFailure(status).code, CONVERSATION_PREFIX)
  {
    assert HttpFailure(status).code[6] == 's' && CONVERSATION_PREFIX[6] == 'c';
  }

  lemma SettledStays(f: Failure)
    ensures Decode(false, ConversationResponse(Coded(SettledConversation(f)))) == SettledConversation(f)
  {
    hide Decimal;
    if f.Coded? {
      UnprefixedHttp(StatusOf(f.error.class_));
      ClassRoundTrip(f.error.class_);
    }
  }

  lemma FirstConversationHop(f: Failure)
    ensures var d := Decode(false, ConversationResponse(f));
            Decode(false, ConversationResponse(Coded(d))) == SettledConversation(f)
  {
    hide Decimal;
    if f.Coded? {
      UnprefixedHttp(StatusOf(f.error.class_));
      ClassRoundTrip(f.error.class_);
    }
  }

  // ---------- runner results ----------

  /** A client gives up exactly on a provider's own, final HTTP failure; it never loses a retryable flag. */
  lemma RunnerVerdict(result: TaskResult)
    requires !Blank(result.errorCode)
    ensures var e := Decode(true, RunnerResponse(result));
            && e.code == TrimSpace(result.errorCode) && e.class_ == TrimSpace(result.errorClass)
            && (result.retryable ==> e.retryable)
            && (!e.retryable <==> result.errorClass == "provider_http" && !result.retryable)
  {
  }
}
