/**
 * The `/webhook` handler (app.py:19-37) with `ask_gpt` (app.py:77-88) and
 * `send_telegram_message` (app.py:90-96). The completion service and the
 * Telegram API are parameters: `complete` says how the chat completion call
 * ends for a request, `deliver` how the HTTP post to Telegram ends. The result
 * is the HTTP response together with the calls made on the way.
 */
module Webhook {
  import opened PyValue
  import Prompt

  const ERROR_STATUS := "❌ Error"
  const SENT_STATUS := "✅ ส่งไป Telegram แล้ว"
  const REPLY_KEY := "GPT_ตอบว่า"
  const NOT_JSON_MESSAGE := "Request must be JSON"
  const NO_ALERTS_MESSAGE := "No alerts data found in payload"
  const GPT_MODEL := "gpt-4o"
  const SYSTEM_PROMPT :=
    "คุณคือ GoldScalpGPT — นักวิเคราะห์ผู้เชี่ยวชาญ XAU/USD วิเคราะห์ข้อมูลจาก 3 Timeframe (H1, M15, M5) "
    + "เพื่อหาจุดเข้าเทรดที่ปลอดภัยและมีโอกาสชนะสูงสุด ให้คำตอบที่ชัดเจนและเป็นประโยชน์ต่อนักเทรด"
  const GPT_ERROR_PREFIX := "[❌ GPT ERROR]: "
  const TELEGRAM_ERROR_PREFIX := "[❌ Telegram ERROR]: "
  const PARSE_MODE := "Markdown"

  /**
   * An incoming POST: whether its content type is JSON, and what
   * `request.json` decodes (None when the body is not valid JSON).
   */
  datatype Request = Request(isJson: bool, json: Option<Value>)

  /**
   * A response built by the handler with `jsonify`, or one Flask builds
   * itself: 400 when decoding the body fails, 500 for an uncaught exception.
   */
  datatype Response = Json(status: int, body: Value) | FrameworkError(status: int)

  /** One entry of the `messages` list of a chat completion request. */
  datatype Message = Message(role: string, content: string)

  /** The chat completion request that `ask_gpt` sends. */
  datatype ChatRequest = ChatRequest(model: string, messages: seq<Message>)

  /** How the completion call ends: with the reply's content, or raising with a message. */
  datatype Completion = Completed(content: string) | CompletionFailed(error: string)

  /** The Telegram `sendMessage` payload; the chat id is configuration. */
  datatype TelegramMessage = TelegramMessage(text: string, parseMode: string)

  /** How `requests.post` ends: it returns (whatever the HTTP status), or raises. */
  datatype Delivery = Posted | PostFailed(error: string)

  /** The calls the handler made and the lines it logged. */
  datatype Effects = Effects(chat: Option<ChatRequest>, telegram: Option<TelegramMessage>, log: seq<string>)

  datatype Handled = Handled(response: Response, effects: Effects)

  const NO_EFFECTS := Effects(None, None, [])

  function ErrorBody(message: string): Value
  {
    Dict([("status", Str(ERROR_STATUS)), ("message", Str(message))])
  }

  function SentBody(reply: string): Value
  {
    Dict([("status", Str(SENT_STATUS)), (REPLY_KEY, Str(reply))])
  }

  /**
   * The request `ask_gpt` makes for a prompt: model gpt-4o, the system
   * instructions first, and the prompt as the one and last user message.
   */
  function ChatFor(prompt: string): (c: ChatRequest)
    ensures c.model == GPT_MODEL
    ensures |c.messages| > 0 && c.messages[0] == Message("system", SYSTEM_PROMPT)
    ensures c.messages[|c.messages| - 1] == Message("user", prompt)
    ensures forall k :: 0 <= k < |c.messages| && c.messages[k].role == "user" ==> c.messages[k].content == prompt
  {
    ChatRequest(GPT_MODEL, [Message("system", SYSTEM_PROMPT), Message("user", prompt)])
  }

  /**
   * `ask_gpt`: the reply's content when the call completes; when it raises,
   * a text that starts with the error marker and ends with the error.
   */
  function AskGpt(outcome: Completion): (reply: string)
    ensures outcome.Completed? ==> reply == outcome.content
    ensures outcome.CompletionFailed? ==>
      && |reply| >= |GPT_ERROR_PREFIX|
      && reply[..|GPT_ERROR_PREFIX|] == GPT_ERROR_PREFIX
      && reply[|GPT_ERROR_PREFIX|..] == outcome.error
  {
    match outcome
    case Completed(content) => content
    case CompletionFailed(error) => GPT_ERROR_PREFIX + error
  }

  /**
   * `send_telegram_message`: what it logs. A post that returns logs nothing;
   * one that raises logs a single line carrying the error.
   */
  function TelegramLog(outcome: Delivery): (log: seq<string>)
    ensures log == [] <==> outcome.Posted?
    ensures outcome.PostFailed? ==>
      && |log| == 1
      && |log[0]| >= |TELEGRAM_ERROR_PREFIX|
      && log[0][..|TELEGRAM_ERROR_PREFIX|] == TELEGRAM_ERROR_PREFIX
      && log[0][|TELEGRAM_ERROR_PREFIX|..] == outcome.error
  {
    match outcome
    case Posted => []
    case PostFailed(error) => [TELEGRAM_ERROR_PREFIX + error]
  }

  function SymbolOf(data: Entries): Value { Get(data, "symbol", Str(Prompt.NO_DATA)) }
  function AlertsOf(data: Entries): Value { Get(data, "alerts", List([])) }
  function TimeOf(data: Entries): Value { Get(data, "time", Str(Prompt.NO_DATA)) }

  /** `build_prompt(symbol, alerts, time)` for a decoded payload. */
  function PromptFor(data: Entries): Outcome<string>
  {
    Prompt.BuildPrompt(SymbolOf(data), AlertsOf(data), TimeOf(data))
  }

  /** `webhook()`. */
  function HandleWebhook(request: Request, complete: ChatRequest -> Completion, deliver: TelegramMessage -> Delivery): (h: Handled)
    ensures h.response.status in {200, 400, 500}
    ensures h.effects.chat.Some? <==> h.response.status == 200
    ensures h.effects.telegram.Some? <==> h.response.status == 200
    ensures h.response.status == 200 ==> h.response == Json(200, SentBody(h.effects.telegram.value.text))
    ensures h.effects.log != [] ==> h.effects.telegram.Some?
  {
    if !request.isJson then Handled(Json(400, ErrorBody(NOT_JSON_MESSAGE)), NO_EFFECTS)
    else match request.json
      case None => Handled(FrameworkError(400), NO_EFFECTS)
      case Some(data) =>
        if !data.Dict? then Handled(FrameworkError(500), NO_EFFECTS)
        else if !Truthy(AlertsOf(data.entries)) then Handled(Json(400, ErrorBody(NO_ALERTS_MESSAGE)), NO_EFFECTS)
        else match PromptFor(data.entries)
          case Raised(_) => Handled(FrameworkError(500), NO_EFFECTS)
          case Returned(prompt) =>
            var chat := ChatFor(prompt);
            var reply := AskGpt(complete(chat));
            var message := TelegramMessage(reply, PARSE_MODE);
            Handled(Json(200, SentBody(reply)), Effects(Some(chat), Some(message), TelegramLog(deliver(message))))
  }

  // ---------------------------------------------------------------------
  // Properties of the handler
  // ---------------------------------------------------------------------

  /** The payload passes validation and `build_prompt` returns. */
  predicate Accepted(request: Request)
  {
    && request.isJson
    && request.json.Some? && request.json.value.Dict?
    && Truthy(AlertsOf(request.json.value.entries))
    && PromptFor(request.json.value.entries).Returned?
  }

  /** A request that is not JSON gets 400 and triggers no call at all. */
  lemma NotJsonRejected(request: Request, complete: ChatRequest -> Completion, deliver: TelegramMessage -> Delivery)
    requires !request.isJson
    ensures HandleWebhook(request, complete, deliver) == Handled(Json(400, ErrorBody(NOT_JSON_MESSAGE)), NO_EFFECTS)
  {
  }

  /**
   * A JSON object whose "alerts" is missing or falsy gets 400 before any
   * prompt is built or any call is made.
   */
  lemma NoAlertsRejected(request: Request, complete: ChatRequest -> Completion, deliver: TelegramMessage -> Delivery)
    requires request.isJson && request.json.Some? && request.json.value.Dict?
    requires var data := request.json.value.entries;
      !HasKey(data, "alerts") || !Truthy(Get(data, "alerts", Null))
    ensures HandleWebhook(request, complete, deliver) == Handled(Json(400, ErrorBody(NO_ALERTS_MESSAGE)), NO_EFFECTS)
  {
    var data := request.json.value.entries;
    if HasKey(data, "alerts") {
      GetIgnoresDefault(data, "alerts", List([]), Null);
    }
  }

  /**
   * The status is 200 exactly for accepted requests, 400 for a body that is
   * not JSON, does not decode or lacks alerts, and 500 when the handler
   * raises: a body that is not an object, or alerts `build_prompt` cannot
   * iterate or index.
   */
  lemma StatusCodes(request: Request, complete: ChatRequest -> Completion, deliver: TelegramMessage -> Delivery)
    ensures var status := HandleWebhook(request, complete, deliver).response.status;
      && (status == 200 <==> Accepted(request))
      && (status == 400 <==>
            || !request.isJson
            || request.json.None?
            || (request.json.value.Dict? && !Truthy(AlertsOf(request.json.value.entries))))
      && (status == 500 <==>
            && request.isJson && request.json.Some?
            && (!request.json.value.Dict? || (Truthy(AlertsOf(request.json.value.entries)) && PromptFor(request.json.value.entries).Raised?)))
  {
  }

  /**
   * The completion service and Telegram are called only for an accepted
   * request, each exactly once; the completion gets the built prompt and
   * Telegram gets the reply that the response carries.
   */
  lemma CallsOnlyWhenAccepted(request: Request, complete: ChatRequest -> Completion, deliver: TelegramMessage -> Delivery)
    ensures var h := HandleWebhook(request, complete, deliver);
      && (h.effects.chat.Some? <==> Accepted(request))
      && (h.effects.telegram.Some? <==> Accepted(request))
      && (!Accepted(request) ==> h.effects == NO_EFFECTS)
      && (Accepted(request) ==>
            && h.effects.chat == Some(ChatFor(PromptFor(request.json.value.entries).value))
            && h.effects.telegram.value.text == AskGpt(complete(h.effects.chat.value))
            && h.response == Json(200, SentBody(h.effects.telegram.value.text))
            && h.effects.telegram.value.parseMode == PARSE_MODE)
  {
  }

  /**
   * The content of a completed call is the reply: it is sent to Telegram as
   * Markdown and returned with 200.
   */
  lemma GptSuccessIsRelayed(request: Request, complete: ChatRequest -> Completion, deliver: TelegramMessage -> Delivery, content: string)
    requires Accepted(request)
    requires complete(ChatFor(PromptFor(request.json.value.entries).value)) == Completed(content)
    ensures var h := HandleWebhook(request, complete, deliver);
      && h.response == Json(200, SentBody(content))
      && h.effects.telegram == Some(TelegramMessage(content, PARSE_MODE))
  {
  }

  /**
   * A failing completion call does not fail the request: the error text
   * becomes the reply, is sent to Telegram and is returned with 200.
   */
  lemma GptFailureIsRelayed(request: Request, complete: ChatRequest -> Completion, deliver: TelegramMessage -> Delivery, error: string)
    requires Accepted(request)
    requires complete(ChatFor(PromptFor(request.json.value.entries).value)) == CompletionFailed(error)
    ensures var h := HandleWebhook(request, complete, deliver);
      && h.response == Json(200, SentBody(GPT_ERROR_PREFIX + error))
      && h.effects.telegram == Some(TelegramMessage(GPT_ERROR_PREFIX + error, PARSE_MODE))
  {
  }

  /**
   * How the Telegram post ends never changes the response or the calls
   * made; a failure is only logged.
   */
  lemma DeliveryNeverChangesResponse(request: Request, complete: ChatRequest -> Completion,
                                     deliver: TelegramMessage -> Delivery, deliver': TelegramMessage -> Delivery)
    ensures var h, h' := HandleWebhook(request, complete, deliver), HandleWebhook(request, complete, deliver');
      && h.response == h'.response
      && h.effects.chat == h'.effects.chat
      && h.effects.telegram == h'.effects.telegram
    ensures var h := HandleWebhook(request, complete, deliver);
      h.effects.telegram.Some? ==>
        (h.effects.log == [] <==> deliver(h.effects.telegram.value).Posted?)
  {
  }

  /**
   * A payload without "symbol" or "time" shows the placeholder on the
   * symbol or time line of the prompt sent to the completion service.
   */
  lemma MissingSymbolAndTimeShowPlaceholder(request: Request, complete: ChatRequest -> Completion, deliver: TelegramMessage -> Delivery)
    requires Accepted(request)
    ensures var data := request.json.value.entries;
      var prompt := PromptFor(data).value;
      && HandleWebhook(request, complete, deliver).effects.chat == Some(ChatFor(prompt))
      && (!HasKey(data, "symbol") ==> exists p :: Prompt.OccursAt(prompt, p, Prompt.SYMBOL_LABEL + Prompt.NO_DATA + "\n\n"))
      && (!HasKey(data, "time") ==> exists p :: Prompt.OccursAt(prompt, p, Prompt.TIME_LABEL + Prompt.NO_DATA + "\n"))
  {
    var data := request.json.value.entries;
    var items := Iterate(AlertsOf(data)).value;
    Prompt.PromptShowsLastAlerts(SymbolOf(data), AlertsOf(data), TimeOf(data));
    var prompt := PromptFor(data).value;
    var pTime, pSymbol, _, _, _ := Prompt.LayoutOrder(ToStr(TimeOf(data)), ToStr(SymbolOf(data)),
      Prompt.LastSection(items, Prompt.H1), Prompt.LastSection(items, Prompt.M15), Prompt.LastSection(items, Prompt.M5));
    if !HasKey(data, "symbol") {
      assert Prompt.OccursAt(prompt, pSymbol, Prompt.SYMBOL_LABEL + Prompt.NO_DATA + "\n\n");
    }
    if !HasKey(data, "time") {
      assert Prompt.OccursAt(prompt, pTime, Prompt.TIME_LABEL + Prompt.NO_DATA + "\n");
    }
  }
}
