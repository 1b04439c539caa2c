# AI text editor: request lifecycle and prompt building, in Dafny

The application is a rich-text editor with three AI actions: rewrite, summarize and fix grammar.
The user selects text and clicks an action. The React client (`client/src/App.js`) reads the
selection, sets a `loading` flag and posts `{action, text}` to a FastAPI backend. It then inserts
the returned `result` into the editor, or shows an alert. The backend (`server/main.py`) strips the
text and refuses a blank one with status 400. Otherwise it builds an instruction prompt for the
action, asks a Gemini model, and answers `{"result": <stripped output>}`. A model failure becomes
status 500.

The project models both halves and the exchange between them:

- `pystring.dfy`, module `PyString`: Python's `str.strip()`. Whitespace is the full set that
  `str.isspace()` accepts. `strip()` is split into `lstrip()` and `rstrip()`. An independent
  reference definition is given: the string with only whitespace removed at its two ends. Both
  directions are proved.
- `server.dfy`, module `Server`: the request body `AIRequest`, `build_prompt` and the handler
  `ai_edit`, as pure functions. The Gemini call is a function parameter
  `generate(model, prompt)` that returns either the generated text or a raised exception's message.
- `client.dfy`, module `Client`: `getSelectedText` as a pure function. The document's `textBetween`
  is a function parameter. `callAI` is a method of class `App`, which holds the `loading` flag and
  an ordered log of what the handler did (alerts, `setLoading` calls, posts and insertions into the
  editor). The outcome of the network exchange is a parameter of the method. The method is proved
  against the function `CallEffects`, and the lemmas are stated about that function.
- `exchange.dfy`, module `Exchange`: the posted body as the server reads it, the server's answer
  as the client parses it, and lemmas about a whole round trip.
- `wrappers.dfy`, module `Wrappers`: `Option`.

Four behaviours of the code are worth knowing:

- `callAI` never reads `loading`. Only the buttons' `disabled={loading}` binding keeps calls from
  overlapping. `App.CallAI` therefore sends a request whatever the flag is. The model does not
  claim that a second call during `loading` is refused.
- Unknown actions are not rejected. `build_prompt` passes the text through unchanged
  (`UnknownActionCanImitateKnown`).
- The errors are not classified. A non-2xx answer has a body `{"detail": ...}`, which has no
  `result`, so the user sees "No result from AI", the same alert as for a missing result. Only an
  exception (network failure, unparsable body) gives "Error calling backend"
  (`ServerErrorsShowAsNoResult`).
- The client's check is `!text`, so a selection made only of whitespace is still sent. The server
  then refuses it with status 400, and the user sees "No result from AI"
  (`BlankSelectionRefusedByServer`).

`Client.FixGrammarExample` is a usage example, not part of the source: it shows what a caller can
conclude from `App.CallAI`'s contract alone.

## Model

| member | source | states |
|---|---|---|
| PyString.IsSpace | server/main.py:40 | the character set of `str.isspace()` that `strip()` removes: the ASCII whitespace characters are in it; digits, ASCII letters and the zero-width space U+200B are not |
| PyString.TrimStart | server/main.py:40 | left half of `strip()`: the result is a suffix of the input; everything dropped is whitespace; the result is empty or starts with a non-whitespace character |
| PyString.TrimEnd | server/main.py:40 | right half of `strip()`: the result is a prefix of the input; everything dropped is whitespace; the result is empty or ends with a non-whitespace character |
| PyString.Strip | server/main.py:49 | the stripped string is no longer than the input and has no whitespace at either end |
| PyString.StripParts | server/main.py:40 | the input is (whitespace) + strip(input) + (whitespace): strip gives a contiguous substring and removes only whitespace at the two ends |
| PyString.StripUnique | server/main.py:40 | any split of the input into whitespace, a core without surrounding whitespace and whitespace makes that core the result of strip |
| PyString.StripMatchesReference | server/main.py:40 | strip(s) == r exactly when r satisfies the reference definition `IsStripOf(s, r)` (both directions) |
| PyString.StripIgnoresPadding | server/main.py:40 | adding whitespace around a string does not change its strip |
| PyString.StripIdempotent | server/main.py:49 | stripping twice equals stripping once |
| PyString.StripEmptyIff | server/main.py:40-41 | strip gives the empty string exactly when the input is empty or all whitespace |
| Server.BuildPrompt | server/main.py:27-36 | the text is a suffix of the prompt; for rewrite, summarize and grammar the prompt is the action's fixed instruction plus a blank line in front of the text; the prompt equals the text exactly when the action is none of the three |
| Server.KnownPromptsDistinct | server/main.py:30-34 | for one text, two different known actions give different prompts |
| Server.PromptRecoversText | server/main.py:29-34 | removing a known action's instruction and blank line from its prompt gives back the text |
| Server.BuildPromptInjective | server/main.py:27-36 | under one action, equal prompts come from equal texts |
| Server.UnknownActionCanImitateKnown | server/main.py:35-36 | unknown actions are not rejected: every unknown action, given a known action's instruction and blank line in front of a text, yields exactly that known action's prompt for the text |
| Server.AiEdit | server/main.py:38-52 | the answer is the 400 "Text cannot be empty" error exactly when the request text is empty or all whitespace; every other error has status 500; a success carries a result without surrounding whitespace |
| Server.BlankTextNeverReachesModel | server/main.py:40-42 | for a blank text the answer is 400 whatever the model would do: the model is never consulted |
| Server.ModelSeesStrippedPrompt | server/main.py:40-48 | the answer depends on the model only through its reply to the prompt built from the stripped text, sent to the requested model |
| Server.SameStrippedTextSameAnswer | server/main.py:40-44 | two requests with the same action, model and stripped text send the model the same model name and prompt, so the same reply gives the same answer |
| Server.SurroundingWhitespaceIgnored | server/main.py:40-44 | whitespace added around the request text leaves the model name and prompt sent to the model unchanged, so the same reply gives the same answer |
| Server.AiEditAnswers | server/main.py:46-52 | for a non-blank text, a generated output gives `{"result": strip(output)}` and a raised exception gives status 500 with its message as detail |
| Client.GetSelectedText | client/src/App.js:14-19 | no text exactly when `from == to`; otherwise exactly `textBetween(from, to, " ")`, unchanged |
| Client.Truthy | client/src/App.js:23 | JavaScript truthiness of a string or null, as in `!text` and `data.result`: true exactly for a non-empty string |
| Client.Reaction | client/src/App.js:36-43 | the `if`/`else`/`catch` after the request has exactly one effect: an insertion when the parsed `result` is truthy, otherwise an alert |
| Client.CallEffects | client/src/App.js:21-47 | one call of `callAI`: without a truthy selected text, only the "Please select text first." alert; otherwise `setLoading(true)`, the post of `{action, text}`, one insertion or alert, then `setLoading(false)` |
| Client.NothingSentWithoutText | client/src/App.js:22-26 | without a selected text, or with an empty one, the only effect is the "Please select text first." alert: no request, no insertion, `loading` unchanged |
| Client.OneRequestWithSelection | client/src/App.js:28-34 | with a selected text exactly one request is sent, and it carries the invoked action and the selected text unchanged |
| Client.InsertsOnlyTruthyResult | client/src/App.js:36-40 | the editor receives exactly one insertion, equal to `result`, when a text was selected and the answer has a non-empty `result`; in every other case it receives none |
| Client.NoticesAfterRequest | client/src/App.js:36-43 | after a request: no alert on success, "No result from AI" when `result` is missing or empty, "Error calling backend" when the exchange threw |
| Client.LoadingBracketsRequest | client/src/App.js:28-46 | for every call that passes the selection check, `loading` is true when the request is sent and false afterwards, whatever the outcome and whatever its value before |
| Client.App.constructor | client/src/App.js:8 | the component starts with `loading` false and nothing done |
| Client.App.SetLoading | client/src/App.js:28 | sets the flag and records the change; afterwards the flag agrees with the log, whatever the state before |
| Client.App.CallAI | client/src/App.js:21-47 | the handler appends exactly `CallEffects(action, selected text, outcome)` to the log; the flag ends as that log says; a call that starts with `loading` false ends with it false; the flag always agrees with the log |
| Exchange.ServerRequest | server/main.py:22-25 | the posted `{action, text}` reaches the handler with the same action and text and the default model `gemini-2.5-flash-lite` |
| Exchange.ClientOutcome | client/src/App.js:35-36 | the client finds a `result` exactly in a success answer, and it is the server's result |
| Exchange.RoundTrip | client/src/App.js:21-47 | the client's effects when its request is answered by the backend: an empty selection only alerts; otherwise four effects with the post of `{action, text}` second; a whitespace-only selection ends in the "No result from AI" alert |
| Exchange.RoundTripInsertion | client/src/App.js:30-40 | over a round trip the editor receives the model's stripped output exactly when the selection has a non-whitespace character and the model answers with a non-whitespace text; otherwise nothing |
| Exchange.BlankSelectionRefusedByServer | client/src/App.js:22-40 | a whitespace-only selection is sent once, the server answers 400, the user sees "No result from AI" and nothing is inserted |
| Exchange.ServerErrorsShowAsNoResult | client/src/App.js:35-40 | every error status from the backend reaches the user as "No result from AI", with no insertion |

## Left out

- The editor engine (document tree, selection tracking, `textBetween`, `chain().focus().insertContent().run()`): the selection is a pair of positions, `textBetween` is a function parameter, and an insertion is an entry in the event log.
- `fetch`, HTTP transport and JSON parsing: the combined result is the `Outcome` parameter of `CallAI`, or `ClientOutcome` of a server answer. `result` values that are not strings (numbers, objects) are not modelled.
- `console.error(err)` in the catch branch: it writes a log line only.
- Exceptions: `getSelectedText` on an editor not yet created throws outside the `try` and leaves `callAI` with no alert; an insertion the editor rejects throws inside the `try` and shows "Error calling backend". The model treats insertion as always succeeding.
- React rendering, JSX, styling and `useState` mechanics (client/src/App.js:49-69), including the `disabled={loading}` binding. That binding is the only guard against overlapping calls.
- Asynchrony: `await` points and interleaving of handlers. Each call of `CallAI` runs to completion.
- The Gemini SDK (`genai.configure`, `GenerativeModel`, `generate_content`, `response.text`): this foreign code is the `generate` parameter, which returns a text or a raised exception's message (`str(e)`). The model's replies can differ from call to call; `generate` gives one fixed reply per model name and prompt.
- FastAPI setup, CORS, dotenv and uvicorn (server/main.py:9-20, 54-60), and pydantic's own validation of the body (a 422 for a missing field).
