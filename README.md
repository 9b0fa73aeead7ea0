# chgpt-api core, modelled in Dafny

chgpt-api puts an OpenAI-style chat-completion API in front of the ChatGPT web
page. It drives the page with a Selenium browser. This project models the
request pipeline between the HTTP schema and the browser:

- **`Services.ChatGPTService`.** The chat service picks the latest user turn
  of a request. For requests that declare functions or tools, it wraps that
  turn in a function-calling prompt. It hands the text to the driver and
  builds a response record whose usage figures are character counts divided
  by four.
- **`Drivers.ChatGPTDriver`.** The browser driver keeps a small session state:
  wrapper, wait object and active flag. It finds the input box, the send
  button and the reply on the page. Each one is the first match over an
  ordered list of CSS selectors. When a lookup fails, the driver returns a
  fixed placeholder reply. Two polling helpers watch the page for a reply.
- **`Utils`.** These helpers redact log messages, build the HTTP error
  envelope and generate response identifiers.

The page is an abstract value (`Drivers.Page`). For every CSS selector it
says what a single-element lookup and a list lookup return: an element with
its displayed, enabled and text state, nothing, or an exception that escapes
the loop. The clock and the UUID generator are passed in (`Services.Stamp`).
The time the reply poller runs for is counted in one-second rounds, each
reading a page snapshot. The regex-and-JSON scan that finds function calls
in a reply is passed in as a function from the reply text to the candidate
calls it finds, in order.

Files:

- `common.dfy`: optional values, Python exceptions as `Result`,
  `str.strip()`, `str.lower()` and the `in` substring test.
- `models.dfy`: the request and response records.
- `utils.dfy`: `sanitize_message`, `create_error_response` and `generate_id`.
- `drivers.dfy`: the browser driver class and the page model.
- `services.dfy`: the chat service class and its helpers.

The code returns the placeholder as an ordinary non-empty reply. On the
regular path the service therefore wraps it in a normal response, and the
model does the same.

## Model

| member | source | states |
|---|---|---|
| Common.Strip | drivers/__init__.py:249 | `str.strip()` is empty exactly when the text is all whitespace; otherwise its first and last characters are not whitespace |
| Common.StripIsPiece | drivers/__init__.py:249 | `str.strip()` keeps a contiguous piece of the text and cuts only whitespace from either end |
| Common.Lower | utils/__init__.py:36 | ASCII lower-casing keeps the length and lower-cases each character in place |
| Common.Contains | utils/__init__.py:36 | `needle in hay` holds exactly when some window of `hay` spells `needle` |
| Utils.ReplaceAll | utils/__init__.py:37 | `str.replace` leaves a text unchanged when the target does not occur in it |
| Utils.ReplaceWhole | utils/__init__.py:37 | replacing a whole non-empty message within itself leaves exactly the marker |
| Utils.SanitizeMessage | utils/__init__.py:30-39 | the result is `***REDACTED***` when any of password/token/key/secret occurs in the message regardless of case; otherwise the message is returned unchanged |
| Utils.RedactedIsNotSensitive | utils/__init__.py:33-37 | the marker contains none of the four words |
| Utils.SanitizeIdempotent | utils/__init__.py:30-39 | sanitising twice equals sanitising once |
| Utils.SensitivityIgnoresCase | utils/__init__.py:36 | messages equal after lower-casing are judged and redacted alike |
| Utils.UpperCaseKeywordRedacted | utils/__init__.py:36-37 | "PASSWORD: admin123" is redacted |
| Utils.CreateErrorResponse | utils/__init__.py:42-50 | code and message are copied unchanged and the type is always "invalid_request_error" |
| Utils.NatToDecimal | utils/__init__.py:20 | `str(n)` is a non-empty digit string without a leading zero |
| Utils.DecimalRoundTrip | utils/__init__.py:20 | reading back the digits of `str(n)` gives `n` |
| Utils.Take | utils/__init__.py:21 | `s[:8]` is the prefix of length `min(8, len(s))`, so a shorter text comes back whole |
| Utils.GenerateId | utils/__init__.py:16-22 | the id starts with the prefix and a dash, and its length is prefix + timestamp digits + UUID piece + 2 dashes |
| Utils.GenerateIdRoundTrip | utils/__init__.py:16-22 | parsing an id recovers the microsecond timestamp and the first eight UUID characters |
| Utils.IdsDifferAcrossClockReadings | utils/__init__.py:20-22 | ids made at different clock readings differ, whatever the UUIDs |
| Drivers.FirstUsable | drivers/__init__.py:107-117 | a hit is an acceptable element |
| Drivers.FirstUsableIsFirst | drivers/__init__.py:107-117 | a hit is the element of the first lookup in selector order that is neither skipped nor failing. No hit means every selector was skipped. An abort is the first non-skipped lookup raising an uncaught exception |
| Drivers.ProbeSelectors | drivers/__init__.py:134-145 | the selector loop returns exactly the first-usable result |
| Drivers.LastListedQuietly | drivers/__init__.py:243-253 | a list lookup under a bare `except` never escapes |
| Drivers.SendOutcome | drivers/__init__.py:99-196 | the reply is never empty: it is the placeholder or the stripped text of the last element of the first response selector whose last element has text. Text is typed only when an input box was found and the message is a string. A click follows only a found button, after typing. When the input box is found, the message is a string and the page takes keys, the text is typed first. When the button is also found and the page takes the click, the actions are exactly typing then clicking, and the reply is the stripped response text if the response lookup hits, or the placeholder if it does not. When typing or clicking does not happen or fails, the reply is the placeholder; a failed typing leaves no action, and a failed click leaves only the typing. No input box means the placeholder and no action; a real reply implies a click |
| Drivers.FirstHit | drivers/__init__.py:242-255 | the element the polling rounds settle on has non-blank text |
| Drivers.FirstHitIsFirst | drivers/__init__.py:242-255 | the polling rounds settle on the element found by the first round, within the 60-round budget, that finds text; they find nothing exactly when no round in the budget finds text |
| Drivers.WaitOutcome | drivers/__init__.py:242-258 | the poller's text is non-blank and stripped, and it is the stripped text of the first round's element with text; it is None exactly when no round finds text |
| Drivers.PollRounds | drivers/__init__.py:242-255 | the polling loop stops at exactly the first round's element with text, or gives None after 60 rounds |
| Drivers.CloseTransition | drivers/__init__.py:58-69 | after closing, the session is inactive. With a wrapper present, the wrapper, wait and flag are cleared; without one, nothing changes |
| Drivers.CloseIdempotent | drivers/__init__.py:58-69 | closing twice equals closing once |
| Drivers.StartTransition | drivers/__init__.py:24-56 | success is exactly "instance obtained with a driver and the page loaded". On success the flag is set and the wrapper kept, and the session is live iff the driver has a session id. A missing wrapper or driver fails; only the wrapper field changes, to what came back. An exception from the process manager, before any field changes, closes the session: the new state is the close transition of the old one. A driver whose page fails to load leaves no wrapper, no wait and the flag cleared |
| Drivers.FailedStartNotLive | drivers/__init__.py:24-56 | a failed start never leaves a live session |
| Drivers.ChatGPTDriver.constructor | drivers/__init__.py:19-22 | a new driver has no wrapper and no wait, and is inactive |
| Drivers.ChatGPTDriver.IsSessionActive | drivers/__init__.py:71-77 | active exactly when the flag is set and there is a wrapper whose driver exists and has a session id |
| Drivers.ChatGPTDriver.CloseSession | drivers/__init__.py:58-69 | the new state is the close transition of the old one, and the session is inactive |
| Drivers.ChatGPTDriver.StartSession | drivers/__init__.py:24-56 | the result and the new state are the start transition of the old state |
| Drivers.ChatGPTDriver.SendMessage | drivers/__init__.py:79-196 | on an inactive session it raises "WebDriver session is not active" before touching the page. On an active one it returns the send outcome's non-empty reply and actions and never raises |
| Drivers.ChatGPTDriver.CheckResponseStarted | drivers/__init__.py:198-224 | true exactly when the driver is present and some indicator selector lists at least one element; failing lookups count as no match |
| Drivers.ChatGPTDriver.WaitForResponse | drivers/__init__.py:226-262 | with a driver present, the result is the stripped text of the first round's element with text, or None after 60 rounds; without a driver it is None. A text returned is non-blank and stripped |
| Services.LatestUserMessage | services/__init__.py:261-266 | the result is the last message whose role is "user". It is None exactly when no message has that role, the empty list included |
| Services.EstimateTokens | services/__init__.py:294-298 | the estimate is at least 1, and a quarter of the total content length, rounded down, once that length is at least 4 |
| Services.EstimateTwelveCharacters | services/__init__.py:294-298 | twelve characters give three tokens |
| Services.JoinedLength | services/__init__.py:120-121 | the space-joined contents are as long as all contents plus one space between neighbours |
| Services.BuildResponse | services/__init__.py:268-292 | the response has exactly one choice: index 0, an assistant message with the given content and no call, and finish reason "stop". The model is copied. Prompt tokens are the estimate over the request. Completion tokens are a quarter of the content length, rounded down, or 1 when that quarter is 0. The total is their sum |
| Services.ErrorResponse | services/__init__.py:103-135 | the error response has one "stop" choice apologising with the error text, and the request's model. Prompt tokens are (all content characters + separating spaces) div 4, with no lower bound. Completion tokens are the error length div 4. The total is their sum |
| Services.BuildErrorResponse | services/__init__.py:103-135 | building the record and then setting its total gives exactly the error response |
| Services.CallResponse | services/__init__.py:222-259 | a missing name raises KeyError('name'); a missing arguments value raises KeyError('arguments'). Otherwise there is one "function_call" choice with no content and the call's name and arguments. Usage is as for errors, computed over the reply text |
| Services.BuildFunctionCallResponse | services/__init__.py:222-259 | reading the keys, building the record and then setting its total gives exactly the function-call response or its KeyError |
| Services.FunctionsOf | services/__init__.py:175 | keeps exactly the functions of the tools typed "function" and never grows the list |
| Services.FunctionsOfAppend | services/__init__.py:175 | extraction distributes over concatenation, so tool order is kept |
| Services.ExtractFunctions | services/__init__.py:171-175 | None or an empty list gives no functions; otherwise the result is the tools' functions |
| Services.FunctionContext | services/__init__.py:137-169 | the prompt is empty exactly when no functions are declared. Otherwise it starts with the fixed header and ends with the JSON-format footer |
| Services.EveryFunctionNamed | services/__init__.py:146-147 | every declared function's "Function: name" line appears in the prompt |
| Services.AppendParameterLines | services/__init__.py:156-161 | the parameter loop appends one line per property, in order, each naming its type (default "string"), whether it is required, and its description |
| Services.AppendParameters | services/__init__.py:151-161 | a function's parameters add exactly the "Parameters:" block, or nothing for an empty schema |
| Services.AppendFunctionBlock | services/__init__.py:147-163 | one function adds exactly its entry: name line, description line, parameters and a blank line |
| Services.AppendFunctionBlocks | services/__init__.py:146-163 | the loop over the functions appends their entries in declaration order |
| Services.BuildFunctionContext | services/__init__.py:137-169 | the accumulated text equals the function prompt for the declared functions |
| Services.BuildFunctionMessage | services/__init__.py:177-179 | the message is the prompt, then "\nUser request: ", then the user content, which can be read back from its end |
| Services.FirstDeclared | services/__init__.py:190-220 | a candidate found names a declared function; with no functions nothing is found |
| Services.FirstDeclaredIsFirst | services/__init__.py:190-220 | the candidate found is the first, in scan order, whose name is declared; nothing is found exactly when no candidate's name is declared |
| Services.DetectFunctionCall | services/__init__.py:181-220 | the scan loop returns exactly the first candidate whose name is declared, or None exactly when no candidate's name is declared |
| Services.FunctionAnswer | services/__init__.py:82-101 | there is always one choice, with the request's model. An exception gives a "stop" choice apologising with "Function calling error: " and the message; an empty reply one apologising with the failure text. A reply naming no declared function gives the plain response. When the first declared candidate has arguments, the choice is the "function_call" choice carrying that name and those arguments, with completion tokens a quarter of the reply; when it lacks arguments, the answer is the error response for "Function calling error: 'arguments'". A function call always names a declared function |
| Services.AnswerFunctionReply | services/__init__.py:82-101 | the answering steps give exactly the function-calling answer for the reply |
| Services.ChatGPTService.constructor | services/__init__.py:13-16 | a new service owns a new, inactive driver |
| Services.ChatGPTService.InitializeSession | services/__init__.py:18-24 | exactly one start attempt is made |
| Services.ChatGPTService.HandleRegularChat | services/__init__.py:48-64 | with no user turn the result is None and the page is untouched. On a live session the result is the built response around the driver's reply, with the driver's actions. On an inactive session with a user turn, the driver's "WebDriver session is not active" exception is passed on and nothing is sent |
| Services.ChatGPTService.HandleFunctionCalling | services/__init__.py:66-101 | with no user turn the result is None and the page is untouched. Otherwise there is always a response, and a function call in it names a declared function. On a live session the text sent is the function prompt plus the user request, the actions are those of sending it, and the response is the function-calling answer to the send outcome's reply. On an inactive session nothing is sent and the response is the answer to the "not active" exception |
| Services.ChatGPTService.CreateChatCompletion | services/__init__.py:26-46 | an inactive session gets exactly one start attempt; an active one is left as it is. A response comes back exactly when the session is live and there is a user turn; otherwise nothing is sent. Without functions or tools, the result is the regular response to the send outcome. With functions or tools, the actions are those of sending the function prompt and the result is the function-calling answer to that send outcome's reply. A function call in the response implies the request declared functions and the name is one of them |
| Services.ChatGPTService.HealthCheck | services/__init__.py:300-302 | healthy exactly when the driver's session is live |
| Services.ChatGPTService.Cleanup | services/__init__.py:304-307 | the driver's session is closed and inactive |

## Left out

- `Common.Lower` folds only the ASCII letters. Python's `str.lower()` also folds other scripts. The four keywords are ASCII, but a non-ASCII letter whose lower case is ASCII (the Kelvin sign) is not modelled.
- Page navigation is reduced to a single `pageLoads` flag of the launch. This covers the `current_url` check, the `get` call and the 30-second wait for the body element. The flag says whether that sequence completed without an exception.
- Selenium waits for the input box are not modelled; the wait's up-to-30-second presence check is the lookup itself. `time.sleep(2)` before reading the reply is left out, as is `textarea.clear()`.
- The 60-second deadline of `_wait_for_response` is modelled as 60 rounds of one second each, with lookups taking no time. The source measures floating-point wall-clock time.
- `time.time()` and `uuid.uuid4()` are parameters (`Services.Stamp`). Float-to-integer truncation of the clock is assumed done by the caller.
- `Services.DetectFunctionCall` takes the candidate calls as a parameter. The regular-expression and `json.loads` scan is not part of this model. Neither are replies whose `function_call` value is not a JSON object, or whose `arguments` is not a string. With functions declared, such a value found by the regular-expression pass raises `AttributeError` from `.get`, which ends in an error response. Found by the line-by-line pass (services/__init__.py:203-218), it raises inside the outer `try`, whose `except Exception: pass` makes the result None, so the reply becomes a plain response. With no functions declared, `any` never calls `.get` and nothing raises.
- `Services.BuildFunctionCallResponse`: models a missing key as a `KeyError` with the key's name. Pydantic validation errors for wrongly typed values are not modelled.
- Pydantic validation of requests and the request fields the service never reads are left out: `temperature`, `top_p`, `stream`, `max_tokens`, `function_call`, `tool_choice`, and message `name` and `tool_calls`.
- `Services.BuildFunctionContext` takes a well-formed parameter schema (`Models.Schema`): when present, `properties` is an ordered list of entries, each with an optional type and description, and `required` is a list of names. The source accepts any dictionary. A property entry that is not a dictionary (`{"properties": {"x": "string"}}`) raises `AttributeError` at `param_info.get` (services/__init__.py:157). A `properties` value that is a list or null raises `AttributeError` at `params.items()` (line 156). A null `required` with at least one property raises `TypeError` at line 159. A string `required` makes line 159 a substring test. The prompt is built at line 70, before the user-turn check, so the first three make `_handle_function_calling` return the "Function calling error: …" response without sending anything, even when there is no user turn. The model does not capture these schemas or that error response.
- Logging is left out; it has no effect on results.
- `drivers/selenium_wrapper.py` is not part of this model. This covers the browser process, the port handling, the window styling and the lock-guarded singleton, whose outcome is the `Launch` parameter. The HTTP layer (`api/__init__.py`, `main.py`), the configuration beyond the 30-second timeout, and the setup and test-runner scripts are also outside the model.
- Concurrency is left out: two requests sharing one driver.
- The send-strategy bands, residual cleanup and chunked sending are referenced by tests/test_input_optimization.py but are absent from the code, so they are absent here too.
