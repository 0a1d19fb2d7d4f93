/**
 * The session's side of the chat-completions endpoint: the requests `callOpenAI` and
 * `testApiKey` send, the outcomes the endpoint can deliver, and the two mappings from
 * an outcome to the text the user is shown.
 */
module Api {
  import opened Wrappers

  /** One role-tagged entry of a request's `messages` list. */
  datatype ChatMessage = ChatMessage(role: string, content: string)

  /**
   * The body and credential of a POST to the completions endpoint: the bearer token of
   * the Authorization header, the model, the messages, `max_tokens` and, when the
   * request sets one, `temperature`.
   */
  datatype Request = Request(
    bearer: string,
    model: string,
    messages: seq<ChatMessage>,
    maxTokens: nat,
    temperature: Option<real>)

  const ModelName := "gpt-4o"

  const SystemHead := "You are "
  const SystemTail :=
    " in a dual-agent workflow system. "
    + "Provide clear, structured, and actionable responses."

  /** The system message naming the stage that sends the request. */
  function SystemMessage(agentName: string): string
  {
    SystemHead + agentName + SystemTail
  }

  /** Different stage names give different system messages. */
  lemma SystemMessageInjective(a1: string, a2: string)
    requires SystemMessage(a1) == SystemMessage(a2)
    ensures a1 == a2
  {
    var m := SystemMessage(a1);
    assert |a1| == |a2|;
    assert a1 == m[|SystemHead|..|SystemHead| + |a1|];
    assert a2 == SystemMessage(a2)[|SystemHead|..|SystemHead| + |a2|];
  }

  /**
   * What `callOpenAI(prompt, agentName)` sends with the stored key: a system message
   * that names the stage, then the prompt verbatim as the user message, at most 2000
   * tokens, temperature 0.7.
   */
  function CompletionRequest(key: string, agentName: string, prompt: string): Request
  {
    Request(key, ModelName,
      [ChatMessage("system", SystemMessage(agentName)), ChatMessage("user", prompt)],
      2000, Some(0.7))
  }

  /**
   * A completion request determines the key, the stage and the prompt it was built
   * from: two requests are equal exactly when all three agree.
   */
  lemma CompletionRequestInjective(k1: string, a1: string, p1: string, k2: string, a2: string, p2: string)
    ensures CompletionRequest(k1, a1, p1) == CompletionRequest(k2, a2, p2) <==> k1 == k2 && a1 == a2 && p1 == p2
  {
    if CompletionRequest(k1, a1, p1) == CompletionRequest(k2, a2, p2) {
      assert CompletionRequest(k1, a1, p1).messages[0] == CompletionRequest(k2, a2, p2).messages[0];
      SystemMessageInjective(a1, a2);
      assert CompletionRequest(k1, a1, p1).messages[1] == CompletionRequest(k2, a2, p2).messages[1];
    }
  }

  /** What `testApiKey` sends: the single user message "Test", at most 5 tokens. */
  function KeyTestRequest(key: string): Request
  {
    Request(key, ModelName, [ChatMessage("user", "Test")], 5, None)
  }

  /**
   * The key test authenticates with the key it tests, and is never one of the stage
   * calls made with that key.
   */
  lemma KeyTestIsNoStageCall(key: string, agentName: string, prompt: string)
    ensures KeyTestRequest(key).bearer == CompletionRequest(key, agentName, prompt).bearer == key
    ensures KeyTestRequest(key) != CompletionRequest(key, agentName, prompt)
  {
    assert |KeyTestRequest(key).messages| != |CompletionRequest(key, agentName, prompt).messages|;
  }

  /**
   * How a request settles: a response with an ok status and the generated text, a
   * response with a failing status and the `error.message` of its payload if it has
   * one, or a rejected fetch (a transport error, or a body that cannot be read) with
   * that error's message.
   */
  datatype Outcome =
    | Ok(text: string)
    | HttpErr(status: int, message: Option<string>)
    | NetErr(detail: string)

  /** The error classes the session tells apart. */
  datatype ErrorKind = Unauthorized | BillingIssue | Forbidden | RateLimited | OtherStatus | Transport

  /** The class of a failing HTTP status: 401, 402, 403 and 429 are singled out. */
  function StatusKind(status: int): (k: ErrorKind)
    ensures k == Unauthorized <==> status == 401
    ensures k == BillingIssue <==> status == 402
    ensures k == Forbidden <==> status == 403
    ensures k == RateLimited <==> status == 429
    ensures k == OtherStatus <==> status !in {401, 402, 403, 429}
    ensures k != Transport
  {
    if status == 401 then Unauthorized
    else if status == 402 then BillingIssue
    else if status == 403 then Forbidden
    else if status == 429 then RateLimited
    else OtherStatus
  }

  const NoKeyMessage := "No API key provided"
  const DefaultFailure := "API request failed"
  const InvalidKeyFailure := "Invalid API key. Please check your key at https://platform.openai.com/api-keys"
  const RateLimitFailure := "Rate limit exceeded. Please try again in a moment."
  const BillingFailure := "Billing issue. Please check your OpenAI account billing."
  const ForbiddenFailure := "API access forbidden. Your key may not have the required permissions."

  /**
   * The payload's own message, or the default when it is missing or empty: the
   * message is never empty, and it is the payload's whenever that has something to say.
   */
  function PayloadMessage(payload: Option<string>): (m: string)
    ensures m != ""
    ensures m == DefaultFailure || payload == Some(m)
    ensures payload.Some? && payload.value != "" ==> m == payload.value
  {
    if payload.Some? && payload.value != "" then payload.value else DefaultFailure
  }

  /** The fixed message `callOpenAI` uses for one of the four singled-out statuses. */
  function FixedFailure(k: ErrorKind): string
    requires k in {Unauthorized, BillingIssue, Forbidden, RateLimited}
  {
    match k
    case Unauthorized => InvalidKeyFailure
    case BillingIssue => BillingFailure
    case Forbidden => ForbiddenFailure
    case RateLimited => RateLimitFailure
  }

  /**
   * The message `callOpenAI` throws for a failing status: the payload's message, or
   * 'API request failed', overridden by a fixed text for 401, 429, 402 and 403.
   */
  function FailureMessage(status: int, payload: Option<string>): (m: string)
    ensures StatusKind(status) != OtherStatus ==> m == FixedFailure(StatusKind(status))
    ensures StatusKind(status) == OtherStatus ==> m == PayloadMessage(payload)
  {
    var m := PayloadMessage(payload);
    if status == 401 then InvalidKeyFailure
    else if status == 429 then RateLimitFailure
    else if status == 402 then BillingFailure
    else if status == 403 then ForbiddenFailure
    else m
  }

  /** Reads a fixed failure message back as the class it stands for. */
  function FixedFailureKind(m: string): Option<ErrorKind>
  {
    if m == InvalidKeyFailure then Some(Unauthorized)
    else if m == BillingFailure then Some(BillingIssue)
    else if m == ForbiddenFailure then Some(Forbidden)
    else if m == RateLimitFailure then Some(RateLimited)
    else None
  }

  /**
   * The four fixed messages are told apart: for a singled-out status the thrown
   * message names its class, whatever the payload said.
   */
  lemma FixedFailureIdentifiesStatus(status: int, payload: Option<string>)
    requires StatusKind(status) != OtherStatus
    ensures FixedFailureKind(FailureMessage(status, payload)) == Some(StatusKind(status))
  {
  }

  /**
   * What the promise returned by `callOpenAI` settles to once a key is present: the
   * generated text verbatim, or a rejection. A rejection for a failing status always
   * has something to say, and for a singled-out status it names the status's class
   * whatever the payload said; a transport failure passes its own message on.
   */
  function CallResult(o: Outcome): (r: Result<string, string>)
    ensures r.Success? <==> o.Ok?
    ensures o.Ok? ==> r.value == o.text
    ensures o.HttpErr? ==> r.error != ""
    ensures o.HttpErr? && StatusKind(o.status) != OtherStatus ==>
      FixedFailureKind(r.error) == Some(StatusKind(o.status))
    ensures o.NetErr? ==> r.error == o.detail
  {
    match o
    case Ok(text) => Success(text)
    case HttpErr(status, message) => Failure(FailureMessage(status, message))
    case NetErr(detail) => Failure(detail)
  }

  const KeyWorksNotice := "\U{2705} API key works perfectly!"
  const TestFailedNotice := "API key test failed"
  const TestUnauthorizedNotice := "\U{274C} Invalid API key"
  const TestBillingNotice := "\U{1F4B3} Billing issue - check your OpenAI account"
  const TestForbiddenNotice := "\U{1F6AB} API access forbidden"
  const TestRateLimitNotice := "\U{23F0} Rate limited - try again later"
  const TestNetworkNotice := "\U{274C} Network error testing API key"

  /** The key test's verdict: the key works, or the class of the failure. */
  datatype TestVerdict = KeyWorks | KeyFails(kind: ErrorKind)

  /** How `testApiKey` reads an outcome. */
  function TestVerdictOf(o: Outcome): TestVerdict
  {
    match o
    case Ok(_) => KeyWorks
    case HttpErr(status, _) => KeyFails(StatusKind(status))
    case NetErr(_) => KeyFails(Transport)
  }

  /** The status line `testApiKey` shows once its request settles. */
  function TestKeyMessage(o: Outcome): (m: string)
    ensures o.HttpErr? && StatusKind(o.status) == OtherStatus ==> m == TestFailedNotice
  {
    match o
    case Ok(_) => KeyWorksNotice
    case HttpErr(status, _) =>
      if status == 401 then TestUnauthorizedNotice
      else if status == 402 then TestBillingNotice
      else if status == 403 then TestForbiddenNotice
      else if status == 429 then TestRateLimitNotice
      else TestFailedNotice
    case NetErr(_) => TestNetworkNotice
  }

  /**
   * The key test's message ignores the payload and tells every verdict apart: two
   * outcomes get the same message exactly when they get the same verdict.
   */
  lemma TestMessageMatchesVerdict(o1: Outcome, o2: Outcome)
    ensures TestKeyMessage(o1) == TestKeyMessage(o2) <==> TestVerdictOf(o1) == TestVerdictOf(o2)
  {
  }
}
