# gold_webhook: the webhook relay's decision and prompt rules in Dafny

The relay takes an alert POST on `/webhook`. It checks the payload,
builds an analysis prompt for XAU/USD from the payload's alerts, asks a chat
completion service for an answer, posts that answer to a Telegram chat and
returns it. This project models the two pieces of logic in `app.py`:

- **`build_prompt`** (module `Prompt`, `prompt.dfy`). The alert list is
  indexed by each alert's `"timeframe"` entry, and the last alert wins for
  each timeframe. The fixed template then gets one section each for H1, M15
  and M5, in that order. A section holds the alert's type, pattern and price
  lines, with "N/A" for any missing field, or the placeholder "ไม่มีข้อมูล"
  when no alert has that timeframe.
- **`webhook`** (module `Webhook`, `webhook.dfy`), together with
  `ask_gpt` and `send_telegram_message`. The handler is a function of the
  request (whether it is JSON, and what it decodes to) and of two parameters:
  how the completion call ends for a given chat request, and how the Telegram
  post ends for a given message. It returns the HTTP response together with
  the calls it made: the chat request, the Telegram message and the log lines.

Module `PyValue` (`python_values.dfy`) models the decoded JSON as Python
values. It also gives the parts of Python's semantics that the code relies
on: `dict.get` with a default, truthiness, iteration in a comprehension,
hashability of dict keys, and `str()` as an f-string applies it. The Python
code raises exceptions in some cases: `.get` on a body that is not an object,
alerts that cannot be iterated, an alert that is not an object, or a list or
object used as a timeframe. The model returns a `Raised` outcome for these,
and the handler turns it into Flask's 500 response. No input is excluded by
a precondition.

A failed completion call does not fail the request: its error becomes the
reply text `[❌ GPT ERROR]: …`, which is sent to Telegram and returned with
status 200.

## Model

| member | source | states |
|---|---|---|
| `PyValue.Get` | app.py:25-27 | `data.get(key, default)` is the default when the key is absent, and otherwise the value bound to the key (its last binding) |
| `PyValue.Truthy` | app.py:30 | `if not alerts`: None is falsy, and a string, list or object is truthy exactly when its `len` is not zero |
| `PyValue.Iterate` | app.py:42 | `for alert in alerts` raises TypeError exactly for None, booleans and numbers, and draws nothing exactly when the value is falsy |
| `PyValue.ToStr` | app.py:56-57 | `str()` in an f-string: None shows as "None", a string as itself, and an integer as a numeral that `int()` reads back as the same integer |
| `PyValue.Render` | app.py:47-49 | `str`/`repr` of a list is bracketed, of an object braced, and `repr` of a string is wrapped in the same quote on both ends |
| `Prompt.CollectAlerts` | app.py:42 | the comprehension's pass returns exactly when every item is a dict whose timeframe is hashable; the result is those dicts, in order |
| `Prompt.BuildPrompt` | app.py:39-42 | `build_prompt` raises exactly for non-iterable alerts, a non-empty string or object, or a list holding a non-dict item or a dict with a list or object timeframe |
| `Prompt.IndexByTimeframe` | app.py:42 | every alert in the timeframe index is one of the input alerts |
| `Prompt.IndexKeys` | app.py:42 | the index's keys are exactly the timeframes that occur, None standing for an alert without one |
| `Prompt.IndexLastWins` | app.py:42 | when several alerts share a timeframe, the index maps it to the last of them |
| `Prompt.IndexedAlertIsNonEmpty` | app.py:44-46 | an alert found under a string timeframe always has entries, so an empty alert never reaches the falsy branch |
| `Prompt.FieldText` | app.py:47-49 | a missing type, pattern or price renders as "N/A"; a present one renders as `str` of its value |
| `Prompt.Section` | app.py:47-49 | a section is never the placeholder text and, when no field holds a newline, splits into exactly three lines: type, pattern and price |
| `Prompt.ExtractTfData` | app.py:44-50 | `extract_tf_data(tf)` is the placeholder exactly when the index has no non-empty alert under `tf`, and that alert's section otherwise |
| `Prompt.SectionIsPlaceholderIffNoAlert` | app.py:44-50 | a timeframe's section is "ไม่มีข้อมูล" if and only if no alert carries that timeframe |
| `Prompt.SectionShowsLastAlert` | app.py:42-49 | the section of a timeframe shows the type, pattern and price of the last alert with that timeframe |
| `Prompt.ExtractMatchesLastSection` | app.py:42-50 | the lookup in the index built by the comprehension agrees with a search from the end of the alert list |
| `Prompt.LastSectionIsPlaceholderIffNone` | app.py:44-50 | the search from the end yields the placeholder if and only if no item of the alert list is a dict with that timeframe |
| `Prompt.LastSectionShowsLast` | app.py:42-49 | the search from the end yields the section of the last dict item with that timeframe |
| `Prompt.PromptShowsLastAlerts` | app.py:39-66 | a prompt `build_prompt` returns is the template holding, for H1, M15 and M5, the section of the last alert with that timeframe or the placeholder |
| `Prompt.OtherTimeframesIgnored` | app.py:53-66 | removing every alert whose timeframe is not H1, M15 or M5 (including those with none) leaves the prompt unchanged |
| `Prompt.LayoutOrder` | app.py:53-75 | the template holds the time line, the symbol line, then the H1, M15 and M5 headings each followed by its section, at strictly increasing positions |
| `Webhook.HandleWebhook` | app.py:19-37 | the status is 200, 400 or 500; the completion service and Telegram are called exactly when it is 200, and the 200 body carries the text sent to Telegram |
| `Webhook.ChatFor` | app.py:79-85 | the completion request names gpt-4o, opens with the system instructions and ends with the prompt as its only user message |
| `Webhook.AskGpt` | app.py:77-88 | the reply is the completion's content; when the call raises, it is the error marker followed by the error, which can be read back from it |
| `Webhook.TelegramLog` | app.py:90-96 | a post that returns logs nothing; one that raises logs one line, the Telegram error marker followed by the error |
| `Webhook.NotJsonRejected` | app.py:21-22 | a non-JSON request gets 400 with "Request must be JSON" and causes no call and no log line |
| `Webhook.NoAlertsRejected` | app.py:26-31 | a JSON object whose "alerts" is missing or falsy gets 400 with "No alerts data found in payload", before any prompt or call |
| `Webhook.StatusCodes` | app.py:19-37 | 200 exactly for accepted requests; 400 exactly for non-JSON, undecodable or alert-less payloads; 500 exactly when the handler raises |
| `Webhook.CallsOnlyWhenAccepted` | app.py:33-37 | only an accepted request reaches the completion service (with the built prompt) and Telegram (with the completion's reply, as Markdown), and the response carries that reply |
| `Webhook.GptSuccessIsRelayed` | app.py:33-37 | a completed call's content is the reply sent to Telegram as Markdown and returned with 200 |
| `Webhook.GptFailureIsRelayed` | app.py:77-88 | a failing completion call becomes the reply "[❌ GPT ERROR]: " + error, which is sent to Telegram and returned with 200 |
| `Webhook.DeliveryNeverChangesResponse` | app.py:90-96 | how the Telegram post ends never changes the response or the calls; a failure only adds a log line |
| `Webhook.MissingSymbolAndTimeShowPlaceholder` | app.py:25-57 | a payload without "symbol" or "time" shows "ไม่มีข้อมูล" on that line of the prompt sent to the completion service |

## Left out

- The OpenAI client and its network call, and the Telegram HTTP post with its URL, bot token and chat id. These are foreign I/O. The model uses only how each call ends, through the `complete` and `deliver` parameters.
- A completion whose content is None (`jsonify` would then return null): the model's completion content is always a string.
- Flask's routing, content-type detection and JSON decoding are inputs to the model (`Request.isJson`, `Request.json`). The text of Flask's own 400 and 500 pages is not modelled, and neither is the way `jsonify` serialises a body (key order, escaping).
- `load_dotenv`, the environment variables, `app.run` and debug mode: these are configuration and process start-up.
- `Prompt.IndexByTimeframe`: keys are compared structurally, so Python's `1 == 1.0 == True` merging of keys and NaN keys are not modelled. This cannot change the lookups of the strings "H1", "M15" and "M5".
- `PyValue.Render`: `repr` of a string does not escape non-printable characters outside ASCII, and a float carries Python's `repr` text instead of computing the shortest round-trip form.
- The order of the log line against other process output: the model keeps the lines `send_telegram_message` prints, but not their interleaving.
- Python's `int()` is modelled (as `ParseInt`) only for numerals made of an optional minus sign and digits; the plus sign, spaces and underscores it also accepts are left out, since it serves only to read back `str` of an integer.
