# In-app documentation assistant: request handler model

`app.py` serves one endpoint, `POST /ai-assistant`. The endpoint takes a
question and an optional chat history from the request body. It checks that
the application documentation is loaded and that the question is not blank,
then turns the history into `User: …` / `AI: …` lines. It builds a prompt
from the documentation, the history and the question, and sends that prompt
to a hosted language model. The model's answer, the model name and the token
count go back as JSON. Any exception raised along the way becomes a JSON
error with status 500.

The model has four modules:

- `PyValues` (`py_values.dfy`): the part of Python's runtime the handler
  relies on.
  - Decoded JSON values, as `Json`.
  - `dict.get` with a default, subscripting, `str.lower` and `str.strip`.
  - The exception each of these raises when a value has the wrong type or
    shape, and the text `str(e)` gives for it.
- `History` (`history.dfy`): `format_chat_history`.
  - The formatter's loop is the method `FormatChatHistory`. It is proved
    equal to the function `FormatHistory`.
  - That function is characterised record by record: which records raise,
    which are dropped and which contribute a line.
- `Prompt` (`prompt.dfy`): the prompt template, built from named constant
  texts. The lemmas state where the documentation, the history section and
  the question sit in it. They also state that each of the three is
  determined by the prompt once the other two are fixed.
  - The three sections are separated only by their headings. When the
    history or the question holds a heading's text, the sections cannot be
    told apart: `Prompt.HistoryHeadingShiftsSections` moves text between
    the documentation and the history without changing the prompt.
- `Assistant` (`assistant.dfy`): `ai_assistant`, `error_response` and
  `success_response`, split at the network call.
  - `Prepare` runs the request checks in the code's order and returns either
    a response or the prompt to send.
  - `Complete` maps what came back from the model service.
  - `AiAssistant` composes the two.
  - The loaded documentation, the decoded request body and the outcome of
    the call are all parameters.

The code is followed where it differs from the documented intent. The
intent describes the history formatter as total. In the code, a record that
is not a dictionary makes it raise, and so does a `role` or `content` that
is not a string. This happens even for records whose role would be dropped,
because the content is stripped before the role is tested. The model has the
formatter return that exception, and the handler then answers it with a 500
error (`History.LinesRaiseAtFirstMalformed`,
`Assistant.MalformedHistoryIsServerError`).

## Model

| member | source | states |
|---|---|---|
| `PyValues.Get` | app.py:77-78 | `v.get(name, default)`: it raises `AttributeError` (`'T' object has no attribute 'get'`) exactly when `v` is not a dictionary. Otherwise it gives the field, or the default when the key is absent. |
| `PyValues.Subscript` | app.py:151 | `v[k]` succeeds on a dictionary with that key, a list with that index or a string with that index, and gives that element. Every other case raises the exception Python raises for that kind of value and key: `KeyError`, `IndexError` or `TypeError`. |
| `PyValues.Lower` | app.py:51 | `.lower()` succeeds exactly on strings. On any other value it raises `AttributeError` naming that value's type. |
| `PyValues.StripValue` | app.py:52 | `.strip()` succeeds exactly on strings. On any other value it raises `AttributeError` naming that value's type. |
| `PyValues.LowerStringMapsLowerChar` | app.py:51 | Lower-casing maps every character through the ASCII lower-case mapping and keeps the length. |
| `PyValues.StripRemovesOuterSpace` | app.py:77 | `s.strip()` is a slice of `s` with only white space outside it. When non-empty, it neither starts nor ends with white space. It is empty exactly when `s` is all white space. |
| `History.RoleIgnoresCase` | app.py:51-56 | A role names the user exactly when it spells `user` ignoring ASCII case. It names the assistant exactly when it spells `assistant` or `bot` ignoring case. |
| `History.LoweredRole` | app.py:51 | For a well-formed record, the lower-cased role, with a missing role read as `""`. |
| `History.StrippedContent` | app.py:52 | For a well-formed record, the stripped content, with missing content read as `""`. |
| `History.TurnLine` | app.py:50-56 | One loop pass. A malformed record raises its exception (`get`, then `lower`, then `strip`). A well-formed record gives a line exactly when it is recognised, and that line is `User: ` or `AI: ` followed by the stripped content. |
| `History.FormatChatHistory` | app.py:43-57 | The loop that appends one line per recognised record and joins the lines with `"\n"` returns exactly `FormatHistory(history)`, including raising at the record that raises. |
| `History.NonListFormatsEmpty` | app.py:47-48 | A history that is not a list formats to `""`. |
| `History.LinesRaiseAtFirstMalformed` | app.py:50-52 | Formatting a list raises exactly when some record is malformed. It then raises what the first malformed record raises. |
| `History.LinesKeepRecognisedInOrder` | app.py:49-56 | Over well-formed records, there is one line per recognised record and no other line. The k-th line is the line of the k-th recognised record, so the input order is kept. |
| `History.LinesArePrefixed` | app.py:53-56 | Every produced line starts with `User: ` or `AI: `. |
| `History.FormattedEmptyIffNoneRecognised` | app.py:49-57 | The formatted text of a list is empty exactly when no record is recognised. |
| `History.SplitJoin` | app.py:57 | Joining non-empty lines that hold no newline with `"\n"` and splitting the result on `"\n"` gives the lines back. |
| `History.OneTextLinePerRecognisedTurn` | app.py:49-57 | When no line holds an inner newline, the formatted text splits into exactly one text line per recognised record, in input order. |
| `Prompt.PromptIsFramed` | app.py:87-123 | Every prompt starts with the persona line and the documentation heading. It ends with the instruction block, which quotes the fallback reply. |
| `Prompt.PromptKeepsOrder` | app.py:87-103 | The documentation, then the history section, then the question occur in the prompt in this order, without overlapping. |
| `Prompt.PromptDeterminesDocumentation` | app.py:92-93 | Prompts that agree on history and question are equal only for equal documentation. |
| `Prompt.PromptDeterminesQuestion` | app.py:102-103 | Prompts that agree on documentation and history are equal only for equal questions. |
| `Prompt.PromptDeterminesHistorySection` | app.py:97-98 | Two histories give the same prompt exactly when they show the same history section. |
| `Prompt.HistoryHeadingShiftsSections` | app.py:92-98 | For any non-empty `m` and `y`, moving the history heading and `m` from the start of the history to the end of the documentation leaves the prompt unchanged. |
| `Prompt.PlaceholderIffNoRecognisedTurn` | app.py:98 | `No prior conversation.` is shown exactly when the history is not a list or has no recognised record. Otherwise the formatted history itself is shown. |
| `Assistant.ErrorResponse` | app.py:60-61 | `error_response` carries the given status and reads back as a failure with exactly that message and status. |
| `Assistant.SuccessResponse` | app.py:64-70 | `success_response` has status 200 and reads back as exactly the given answer, model and token count. |
| `Assistant.ParseRequest` | app.py:76-78 | Reading the request succeeds exactly when the body is an object whose question, when present, is a string. It raises the `get` error for a non-object and the `strip` error for a non-string question. On success it gives the stripped question and the history, or `[]` when the history is missing. |
| `Assistant.NoDocumentationIsServerError` | app.py:80-81 | Without documentation, every request gets status 500, whatever the question, history or model reply. A readable request gets the missing-documentation message. |
| `Assistant.BlankQuestionIsClientError` | app.py:77-83 | Status 400 is returned exactly when documentation is loaded and the question of a readable request is empty or all white space. The response is then the missing-question error, and the model is not called. |
| `Assistant.ModelCalledIffRequestValid` | app.py:77-87 | The model is called exactly when documentation is loaded, the request is readable, the stripped question is not empty and the history formats. The prompt is then built from the documentation, the formatted history and the stripped question. |
| `Assistant.MalformedHistoryIsServerError` | app.py:85 | A history that raises while being formatted gives a 500 response carrying that exception's text. |
| `Assistant.NonObjectRequestRejected` | app.py:76-77 | A body that is not a JSON object gets status 500 with `'T' object has no attribute 'get'`. |
| `Assistant.NonStringQuestionRejected` | app.py:77 | A question that is not a string gets status 500 with `'T' object has no attribute 'strip'`, whether or not documentation is loaded. |
| `Assistant.UpstreamIgnoredWithoutCall` | app.py:80-85 | When the handler responds before the call, the outcome of a call cannot change its response. |
| `Assistant.ReadReplyIffReadable` | app.py:150-156 | A reply is read without raising exactly when it has a `choices` list whose first element has a `message` object with `content`, and its `usage`, if present, is an object. The answer is then that content, `model` (or null) and `usage.total_tokens` (or 0). |
| `Assistant.ReadReplyRaisesFirstFailure` | app.py:151-156 | Reading a reply that is not readable raises the exception of the first failing lookup, in the order `["choices"]`, `[0]`, `["message"]`, `["content"]`, `usage.get`. |
| `Assistant.UnreadableReplyIsServerError` | app.py:150-161 | Once the model is called, every reply that is not readable gets status 500 carrying `str(e)` of the exception raised by the first failing lookup. |
| `Assistant.MissingChoicesReported` | app.py:151 | A reply object without `choices` gives a 500 response with error `'choices'`. |
| `Assistant.EmptyChoicesReported` | app.py:151 | An empty `choices` list gives a 500 response with error `list index out of range`. |
| `Assistant.SuccessIffModelAnswered` | app.py:147-157 | Status 200 is returned exactly when the model is called and its reply is readable. The response then carries that reply's answer, model and token count. |
| `Assistant.TransportFailureIsServerError` | app.py:147-148 | A failed call, whether a connection error or an error status, gives a 500 response carrying the exception's text. |
| `Assistant.EveryResponseDecodes` | app.py:75-161 | Every response is either a success with status 200 or an error with status 400 or 500. Its `success` flag is true exactly for status 200. |

## Left out

- Flask routing, `jsonify`, CORS and `app.run` (app.py:22-23, 73, 164-165) are web-framework plumbing. A response is a status code and a `Json` body; serialising it to bytes is not modelled.
- Environment loading and the startup `RuntimeError` for a missing API key (app.py:10-19) are process configuration, not request handling.
- `load_documentation_from_word` (app.py:30-37) wraps a Word-file library that is not part of this model. The loaded documentation is a string parameter, and `""` means it could not be loaded.
- The HTTP call, `raise_for_status` and `response.json()` (app.py:147-150) are network I/O. Their outcome is the `Upstream` parameter: an exception with its text, or the decoded reply.
- The request headers and the request body sent to the model (app.py:125-145) are not modelled. These are the API key, the model name, the system message, `temperature` 0.2 and `max_tokens` 1000. Only the prompt they carry is.
- `request.get_json()` failures are modelled as an exception text given as a parameter. The exact wording Flask uses for them is not modelled.
- Logging (app.py:26-27, 36, 160) is a side effect with no bearing on the response.
- `PyValues.LowerString`: lower-cases ASCII letters only. Python's `str.lower` also maps other Unicode letters. Recognising `user`, `assistant` and `bot` does not depend on the difference, but the text of a lower-cased role does.
- JSON numbers with a fraction or exponent are kept as their literal text, because the handler never computes with them. That literal is carried unchanged into `answer`, `model_used` or `tokens_used`. How Python re-serialises such a number is not modelled. Integers are unbounded.
- `Assistant.SuccessIffModelAnswered`: `tokens_used` is whatever the reply holds. The model does not claim it is a non-negative integer, because the code passes it through unchecked.
