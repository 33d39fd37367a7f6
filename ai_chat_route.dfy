/**
 * `POST /api/ai-chat`: gate the request, read the form, build the prompt, try
 * the language models in order until one answers, save the exchange for a
 * logged-in user and log one "ai-chat" usage event.
 *
 * The model service, the PDF text extraction and the session are inputs: a
 * function from (model name, prompt) to an outcome, the extraction's result
 * for the uploaded file, and the session user's id.
 */
module AiChatRoute {
  import opened Wrappers
  import opened UsageLimit
  import opened Headers

  /** The models, in order of preference. */
  const Models: seq<string> := [
    "gemini-2.5-flash",
    "gemini-2.5-flash-lite",
    "gemini-2.0-flash-exp",
    "gemini-1.5-flash",
    "gemini-1.5-flash-8b",
    "gemini-1.5-pro",
    "gemini-pro"
  ]

  const UserLimitMessage := "Daily AI limit reached (3/3)."
  const GuestLimitMessage := "Guest limit reached (1/1). Sign in for more."
  const MessageRequired := "Message is required"
  const PdfUnreadable := "Failed to read PDF content"
  const AllModelsFailed := "All models failed. Please check your API Quota."
  const GenericFailure := "Failed to generate response"
  const DefaultDocId := "general"

  const QuestionLead := "User Question: "
  const DocumentLead := "Using the following document content, answer the user's question. If the answer is not in the document, say so.\n\nDocument Content:\n"
  const AssistantLine := "Answer the following question as a helpful assistant."

  /** A value thrown by a model call: an `Error` object, or some other value (truthy or not). */
  datatype Thrown = ErrorObject(message: string) | OtherValue(truthy: bool)

  /** What one model call gives: the response text, or a thrown value. */
  datatype ModelOutcome = Text(text: string) | Threw(error: Thrown)

  /** The uploaded file, if any, and what text extraction made of it. */
  datatype Upload = NoFile | Parsed(text: string) | Unreadable

  /** The fields of the request's form data. */
  datatype ChatForm = ChatForm(file: Upload, message: Option<string>, docId: Option<string>)

  datatype ChatResponse =
    | Reply(response: string)                  // status 200
    | Error(status: nat, error: string)

  /** One row of the `chat_history` table. */
  datatype ChatRow = ChatRow(userId: string, docId: string, role: string, content: string)

  // ---------------------------------------------------------------- the prompt

  /** The prompt sent to every model; the document section is used iff the extracted text is non-empty. */
  function Prompt(message: string, contextText: string): (p: string)
    ensures QuestionLead + message + "\n\n" <= p
    ensures contextText != "" ==> p == QuestionLead + message + "\n\n" + DocumentLead + contextText + "\n"
    ensures contextText == "" ==> p == QuestionLead + message + "\n\n" + AssistantLine
  {
    var question := QuestionLead + message + "\n\n";
    if contextText != "" then question + DocumentLead + contextText + "\n" else question + AssistantLine
  }

  // ------------------------------------------------------------- model fallback

  /** An outcome that ends the search: non-empty response text. */
  predicate IsAnswer(o: ModelOutcome) {
    o.Text? && o.text != ""
  }

  /** What each model in `Models` would give for `prompt`, in order. */
  function Outcomes(prompt: string, generate: (string, string) -> ModelOutcome): (os: seq<ModelOutcome>)
    ensures |os| == |Models|
    ensures forall i :: 0 <= i < |Models| ==> os[i] == generate(Models[i], prompt)
  {
    seq(|Models|, i requires 0 <= i < |Models| => generate(Models[i], prompt))
  }

  /** Position of the first answer in `os`, or `|os|` when no outcome is an answer. */
  function FirstAnswer(os: seq<ModelOutcome>): (k: nat)
    ensures k <= |os|
    ensures k < |os| ==> IsAnswer(os[k])
    ensures forall j :: 0 <= j < k ==> !IsAnswer(os[j])
  {
    if os == [] then 0
    else if IsAnswer(os[0]) then 0
    else 1 + FirstAnswer(os[1..])
  }

  /** The value thrown last in `os`, if any outcome threw. */
  function LastThrown(os: seq<ModelOutcome>): (t: Option<Thrown>)
    ensures t.None? <==> forall i :: 0 <= i < |os| ==> !os[i].Threw?
    ensures t.Some? ==> exists i :: 0 <= i < |os| && os[i] == Threw(t.value) && forall j :: i < j < |os| ==> !os[j].Threw?
  {
    if os == [] then None
    else
      var n := |os| - 1;
      match os[n]
      case Threw(e) => Some(e)
      case Text(_) => LastThrown(os[..n])
  }

  /** Number of models the loop calls: up to and including the first that answers. */
  function Tried(os: seq<ModelOutcome>): (n: nat)
    ensures n <= |os|
  {
    var k := FirstAnswer(os);
    if k < |os| then k + 1 else |os|
  }

  /**
   * The fallback loop: call the models in order, stop at the first non-empty
   * text, and remember the last thrown value. `tried` is the number of calls.
   */
  method TryModels(prompt: string, generate: (string, string) -> ModelOutcome)
    returns (responseText: string, lastError: Option<Thrown>, tried: nat)
    ensures var os := Outcomes(prompt, generate);
      && tried == Tried(os)
      && (responseText != "" <==> FirstAnswer(os) < |os|)
      && (responseText != "" ==> responseText == os[FirstAnswer(os)].text)
      && lastError == LastThrown(os[..tried])
  {
    ghost var os := Outcomes(prompt, generate);
    responseText := "";
    lastError := None;
    tried := |Models|;
    for i := 0 to |Models|
      invariant responseText == ""
      invariant forall j :: 0 <= j < i ==> !IsAnswer(os[j])
      invariant lastError == LastThrown(os[..i])
    {
      var outcome := generate(Models[i], prompt);
      assert os[..i + 1] == os[..i] + [outcome];
      assert (os[..i] + [outcome])[..i] == os[..i];
      match outcome
      case Text(text) =>
        responseText := text;
        if responseText != "" {
          tried := i + 1;
          break;
        }
      case Threw(error) =>
        lastError := Some(error);
    }
    assert os[..|Models|] == os;
  }

  /** `throw lastError || new Error(...)`, then the handler's `error instanceof Error ? error.message : ...`. */
  function FailureMessage(lastError: Option<Thrown>): (m: string)
    ensures lastError.None? ==> m == AllModelsFailed
    ensures lastError == Some(OtherValue(false)) ==> m == AllModelsFailed
    ensures lastError == Some(OtherValue(true)) ==> m == GenericFailure
    ensures forall msg :: lastError == Some(ErrorObject(msg)) ==> m == msg
  {
    match lastError
    case None => AllModelsFailed
    case Some(ErrorObject(message)) => message
    case Some(OtherValue(truthy)) => if truthy then GenericFailure else AllModelsFailed
  }

  // ---------------------------------------------------------------- the request

  /** `docId || "general"`. */
  function DocIdOrDefault(docId: Option<string>): string {
    if Truthy(docId) then docId.value else DefaultDocId
  }

  /** The two chat-history rows saved for a logged-in user: the question, then the answer. */
  function HistoryRows(userId: string, docId: Option<string>, message: string, answer: string): seq<ChatRow> {
    [ChatRow(userId, DocIdOrDefault(docId), "user", message),
     ChatRow(userId, DocIdOrDefault(docId), "assistant", answer)]
  }

  /** The event a successful request logs. */
  function ChatEvent(user: Option<string>, forwardedFor: Option<string>, now: int): UsageEvent {
    UsageEvent(user, AiChat, None, Some(ClientIp(forwardedFor)), now)
  }

  /** The gate's decision for this request. */
  function Gate(events: seq<UsageEvent>, user: Option<string>, forwardedFor: Option<string>,
                startOfDay: int, store: Replies): Decision
  {
    CheckUsageLimit(events, user, AiChat, Some(ClientIp(forwardedFor)), startOfDay, store)
  }

  /** The text extracted from the upload (empty without a file). */
  function ContextText(file: Upload): string {
    if file.Parsed? then file.text else ""
  }

  /** True when the request gets as far as calling the models. */
  predicate ReachesModels(events: seq<UsageEvent>, user: Option<string>, forwardedFor: Option<string>,
                          startOfDay: int, store: Replies, form: ChatForm)
  {
    Gate(events, user, forwardedFor, startOfDay, store).allowed && Truthy(form.message) && !form.file.Unreadable?
  }

  /** The reply the handler gives, as a function of the store, the form and the models. */
  function Respond(events: seq<UsageEvent>, user: Option<string>, forwardedFor: Option<string>,
                   startOfDay: int, store: Replies, form: ChatForm,
                   generate: (string, string) -> ModelOutcome): (r: ChatResponse)
    // gate first: a denied request gets 429 whatever its form says
    ensures !Gate(events, user, forwardedFor, startOfDay, store).allowed ==>
      r == Error(429, if Truthy(user) then UserLimitMessage else GuestLimitMessage)
    ensures Gate(events, user, forwardedFor, startOfDay, store).allowed && !Truthy(form.message) ==>
      r == Error(400, MessageRequired)
    ensures Gate(events, user, forwardedFor, startOfDay, store).allowed && Truthy(form.message) && form.file.Unreadable? ==>
      r == Error(400, PdfUnreadable)
    // a 200 reply carries the first non-empty model answer to the prompt built from the message
    ensures r.Reply? <==>
      ReachesModels(events, user, forwardedFor, startOfDay, store, form)
      && FirstAnswer(Outcomes(Prompt(form.message.value, ContextText(form.file)), generate)) < |Models|
    ensures r.Reply? ==>
      var os := Outcomes(Prompt(form.message.value, ContextText(form.file)), generate);
      r.response != "" && r.response == os[FirstAnswer(os)].text
    // no answer from any model: 500 with the last thrown error's message
    ensures ReachesModels(events, user, forwardedFor, startOfDay, store, form) && !r.Reply? ==>
      var os := Outcomes(Prompt(form.message.value, ContextText(form.file)), generate);
      r == Error(500, FailureMessage(LastThrown(os)))
  {
    if !Gate(events, user, forwardedFor, startOfDay, store).allowed then
      Error(429, if Truthy(user) then UserLimitMessage else GuestLimitMessage)
    else if !Truthy(form.message) then Error(400, MessageRequired)
    else if form.file.Unreadable? then Error(400, PdfUnreadable)
    else
      var os := Outcomes(Prompt(form.message.value, ContextText(form.file)), generate);
      var k := FirstAnswer(os);
      if k < |os| then Reply(os[k].text)
      else Error(500, FailureMessage(LastThrown(os)))
  }

  /** A successful chat by a logged-in user uses one AI credit and leaves the AI count within its limit. */
  lemma {:induction false} SuccessfulChatUsesOneCredit(events: seq<UsageEvent>, user: string, forwardedFor: Option<string>,
                                                     startOfDay: int, now: int, form: ChatForm,
                                                     generate: (string, string) -> ModelOutcome)
    requires user != "" && now >= startOfDay
    requires Respond(events, Some(user), forwardedFor, startOfDay, Replies(Counted, Counted), form, generate).Reply?
    ensures var ai := Query(startOfDay, User(user), Only(AiChat));
      var general := Query(startOfDay, User(user), Except(AiChat));
      var after := events + [ChatEvent(Some(user), forwardedFor, now)];
      && Count(after, ai) == Count(events, ai) + 1 <= UserAiLimit
      && Count(after, general) == Count(events, general)
  {
    var e := ChatEvent(Some(user), forwardedFor, now);
    CountSnoc(events, e, Query(startOfDay, User(user), Only(AiChat)));
    CountSnoc(events, e, Query(startOfDay, User(user), Except(AiChat)));
  }

  /** After one successful guest chat, the next gated request from that address today is denied. */
  lemma SuccessfulGuestChatExhaustsPool(events: seq<UsageEvent>, forwardedFor: Option<string>, userId: Option<string>,
                                        startOfDay: int, now: int, actionType: string, store: Replies)
    requires !Truthy(userId) && now >= startOfDay && actionType != DefaultActionType
    requires !store.first.QueryError? && store.second.Counted?
    ensures !CheckUsageLimit(events + [ChatEvent(None, forwardedFor, now)], userId, actionType,
                             Some(ClientIp(forwardedFor)), startOfDay, store).allowed
  {
    GuestPoolIsShared(events, ChatEvent(None, forwardedFor, now), userId, actionType, ClientIp(forwardedFor), startOfDay, store);
  }

  /** The `chat_history` table. */
  class ChatHistory {
    var rows: seq<ChatRow>

    constructor ()
      ensures rows == []
    {
      rows := [];
    }

    method Insert(row: ChatRow)
      modifies this
      ensures rows == old(rows) + [row]
    {
      rows := rows + [row];
    }
  }

  /**
   * `POST`. Exactly one usage event is logged, and only when a model answered;
   * two history rows are saved, and only then, for a logged-in user.
   * `modelsCalled` counts the model calls made.
   */
  method Post(log: UsageLog, history: ChatHistory, user: Option<string>, forwardedFor: Option<string>,
              startOfDay: int, now: int, store: Replies, form: ChatForm,
              generate: (string, string) -> ModelOutcome)
    returns (response: ChatResponse, ghost modelsCalled: nat)
    modifies log, history
    ensures response == Respond(old(log.events), user, forwardedFor, startOfDay, store, form, generate)
    ensures log.events == old(log.events) + (if response.Reply? then [ChatEvent(user, forwardedFor, now)] else [])
    ensures |log.events| == |old(log.events)| + (if response.Reply? then 1 else 0)
    ensures history.rows == old(history.rows) +
      (if response.Reply? && user.Some? then HistoryRows(user.value, form.docId, form.message.value, response.response) else [])
    ensures modelsCalled ==
      if ReachesModels(old(log.events), user, forwardedFor, startOfDay, store, form)
      then Tried(Outcomes(Prompt(form.message.value, ContextText(form.file)), generate)) else 0
  {
    modelsCalled := 0;
    var ip := ClientIp(forwardedFor);
    var decision := CheckUsageLimit(log.events, user, AiChat, Some(ip), startOfDay, store);
    if !decision.allowed {
      var limitMsg := if Truthy(user) then UserLimitMessage else GuestLimitMessage;
      return Error(429, limitMsg), 0;
    }
    if !Truthy(form.message) {
      return Error(400, MessageRequired), 0;
    }
    var message := form.message.value;
    var contextText := "";
    if form.file.Unreadable? {
      return Error(400, PdfUnreadable), 0;
    } else if form.file.Parsed? {
      contextText := form.file.text;
    }
    var prompt := Prompt(message, contextText);
    var responseText, lastError, tried := TryModels(prompt, generate);
    modelsCalled := tried;
    if responseText == "" {
      ghost var os := Outcomes(prompt, generate);
      assert os[..tried] == os;
      return Error(500, FailureMessage(lastError)), modelsCalled;
    }
    if user.Some? {
      history.Insert(ChatRow(user.value, DocIdOrDefault(form.docId), "user", message));
      history.Insert(ChatRow(user.value, DocIdOrDefault(form.docId), "assistant", responseText));
    }
    log.LogUsage(user, AiChat, None, Some(ip), now);
    response := Reply(responseText);
  }
}
