# Gemini commit-message TUI — a Dafny model

The program is a one-screen terminal application. It builds a prompt from an editable template,
an optional context and the staged `git diff`, and sends it to the Gemini `generateContent`
endpoint. It then shows the reply (or the error) in an output area that can be copied to the
clipboard. Global key chords drive it, and a help overlay (F1) suspends most of them.

The model has seven modules, one file each:

- `Results` (`results.dfy`): `Option`, and `Result`, which holds either a value or the message of
  a Python exception.
- `Text` (`text.dfy`): Python's `str.isspace` and `str.strip`. The program strips the context
  field and the temperature field.
- `Prompt` (`prompt.dfy`): `build_prompt` as a pure function of template, context, language
  value and diff text, plus `get_git_diff` as diff-or-empty.
- `Gemini` (`gemini.dfy`): decoded JSON as a datatype, `ensure_key`, and `call_gemini`. The call
  checks the key, then parses the temperature, then posts. The reply text is extracted by a
  chained `.get(...)[0]` lookup with a fallback to the dump of the whole body.
- `Generation` (`generation.dfy`): the body of the background task. It builds the prompt, turns
  the temperature field into the argument of `float`, calls the endpoint and hands the result to
  the output field.
- `KeyCommands` (`keycommands.dfy`): the screen's global state as one record. Every handler,
  button and key binding is a function on it. The event loop is a fold over key presses,
  button presses and task hand-backs.
- `Tui` (`tui.dfy`): class `App`. Its fields are the widgets' texts, the help flag, the focus,
  the texts sent to the clipboard and the exit flag. Each handler is a method that updates them
  in place, and each method is proved to produce exactly the state given by its `KeyCommands`
  function.

Things the program gets from outside become parameters: the outcome of `git diff --cached`, the
API key, Python's `float`, the HTTP round trip, and `json.dumps(body, indent=2)`. The same goes
for what prompt_toolkit decides at a given moment: the control a rebuilt layout focuses, the
next or previous control in focus order, whether the focused control has a text buffer, and its
active selection.

Behaviour of the code worth noting:

- Closing help does not restore the focus held before it opened. `toggle_help` only rebuilds
  the layout, and the rebuilt layout focuses a control of its own choosing (`landing`).
- A non-numeric temperature is not replaced by `0.2`. Only a blank field is. Any other text
  reaches `float`, whose error ends up as `Error: ...` in the output.
- Nothing stops a second generation while one is running. Each Ctrl-j outside help starts a new
  task.
- The task writes the output and status widgets itself. Nothing is handed back through a queue.

## Model

| member | source | states |
|---|---|---|
| `Text.Strip` | tui_gemini_commit_generator.py:106 | `context.strip()` is empty exactly when the context is all whitespace; a non-empty result starts and ends with a non-space character |
| `Text.TrimStart` | tui_gemini_commit_generator.py:106 | the leading-whitespace cut keeps a suffix of the input that starts with a non-space character, and everything it drops is whitespace |
| `Text.TrimEnd` | tui_gemini_commit_generator.py:106 | the trailing-whitespace cut keeps a prefix that ends with a non-space character, and everything it drops is whitespace |
| `Text.StripEmptyIffBlank` | tui_gemini_commit_generator.py:106 | stripping leaves nothing if and only if every character is whitespace |
| `Text.StripSlice` | tui_gemini_commit_generator.py:196 | the stripped text is the slice of the input that starts after the leading whitespace |
| `Text.StripTrailing` | tui_gemini_commit_generator.py:196 | everything after that slice is whitespace |
| `Prompt.GitDiff` | tui_gemini_commit_generator.py:97-101 | a failed `git diff --cached` gives the empty text and never an error; otherwise its output is used unchanged |
| `Prompt.ContextBlock` | tui_gemini_commit_generator.py:106-107 | a blank context adds nothing; any other context adds the fixed header followed by the context exactly as typed |
| `Prompt.BuildPrompt` | tui_gemini_commit_generator.py:104-113 | the prompt starts with the template and ends with the diff unchanged; in between is the context block, present only for a non-blank context, then the language instruction |
| `Prompt.LanguageChangesOnlyInstruction` | tui_gemini_commit_generator.py:108-111 | two prompts that differ only in the language value agree on the template-and-context prefix and on the diff suffix, and differ only in the instruction between them |
| `Prompt.SpanishDiffersFromOther` | tui_gemini_commit_generator.py:108-111 | "es" and any other language value give different prompts |
| `Prompt.EnglishPromptEndsWithDiff` | tui_gemini_commit_generator.py:104-113 | with a blank context, language "en" and diff "+foo", the prompt is the template, then the English instruction, then "+foo" |
| `Gemini.EnsureKey` | tui_gemini_commit_generator.py:116-119 | the key is accepted if and only if it is non-empty; an empty key gives the configuration error message |
| `Gemini.Extract` | tui_gemini_commit_generator.py:131-139 | the reply is either the dump of the whole body, or a truthy value that the chained lookup found |
| `Gemini.ExtractIsCandidateOrDump` | tui_gemini_commit_generator.py:131-139 | the lookup's defaults never produce a text of their own: the reply is the value at `candidates[0].content.parts[0].text` when that path exists and the value is truthy, and the dump otherwise |
| `Gemini.ExtractCandidate` | tui_gemini_commit_generator.py:131-137 | a non-empty string at the candidate path is returned as it is |
| `Gemini.CallGemini` | tui_gemini_commit_generator.py:122-139 | an empty key gives the configuration error with no request sent; a temperature `float` rejects gives its error with no request sent; a request is sent exactly when both checks pass, to the selected model's URL with the key as query, the prompt and the parsed temperature; its reply is the extraction of the response, and a transport error is passed on |
| `Generation.TemperatureArg` | tui_gemini_commit_generator.py:196 | a blank temperature field becomes "0.2"; any other text is stripped and passed on, non-numeric text included |
| `Generation.Delivered` | tui_gemini_commit_generator.py:196-201 | only a string reply reaches the output field as text; an error of the call is passed on with its message |
| `Generation.Task` | tui_gemini_commit_generator.py:193-202 | the prompt is built from the fields and the diff; the call is `call_gemini` on that prompt, the temperature argument and the selected model, and the outcome is its result as delivered to the output field; with no key nothing is sent and the outcome is the configuration error; a successful outcome is always the text of a reply to a sent request |
| `Generation.RejectedTemperatureFails` | tui_gemini_commit_generator.py:122-128 | a temperature that `float` rejects fails the task with `float`'s message, and no request is sent |
| `Generation.TransportErrorFails` | tui_gemini_commit_generator.py:128-130 | an error of the post, the status check or the decoding fails the task with that error's message |
| `Generation.CandidateTextIsDelivered` | tui_gemini_commit_generator.py:193-198 | when the sent request is answered with a non-empty candidate text, that exact text is the task's outcome |
| `KeyCommands.Initial` | tui_gemini_commit_generator.py:47-56 | at start-up help is hidden, the status is "F1 -> Help", context and output are empty, language "es", model pro, temperature "0.2" |
| `KeyCommands.ToggleHelp` | tui_gemini_commit_generator.py:234-238 | flips the help flag and leaves focus to the rebuilt layout; nothing else changes |
| `KeyCommands.FocusOn` | tui_gemini_commit_generator.py:219-231 | a focus move is ignored while help is shown; otherwise only the focus changes |
| `KeyCommands.QuitOrDismiss` | tui_gemini_commit_generator.py:356-362 | with help shown, closes help and does not exit; otherwise sets the exit flag and changes nothing else |
| `KeyCommands.QuitApp` | tui_gemini_commit_generator.py:215-216 | the Quit button exits and changes nothing else |
| `KeyCommands.CopyOutput` | tui_gemini_commit_generator.py:207-212 | ignored while help is shown; otherwise the output text is sent to the clipboard and the status says so, nothing else changes |
| `KeyCommands.StartGeneration` | tui_gemini_commit_generator.py:187-191 | ignored while help is shown; otherwise only the status changes, to "Generando..." |
| `KeyCommands.ClearContext` | tui_gemini_commit_generator.py:385-391 | ignored while help is shown; otherwise the context becomes "", the focus the context area and the status "Contexto limpiado", and nothing else changes |
| `KeyCommands.SelectAll` | tui_gemini_commit_generator.py:167-183 | ignored while help is shown; otherwise only the status changes: "Todo el texto seleccionado" if and only if the focused control has a buffer, the no-buffer message if and only if it has none |
| `KeyCommands.CopySelection` | tui_gemini_commit_generator.py:143-163 | ignored while help is shown; with a buffer and an active selection the selection is sent to the clipboard, otherwise the status says there is no selection; only clipboard and status change |
| `KeyCommands.CommitOutcome` | tui_gemini_commit_generator.py:193-202 | after the task the status is "Hecho" exactly on success, with the reply as output, and "Error" otherwise, with "Error: " and the message as output; it is never left at "Generando..." and nothing else changes |
| `KeyCommands.Dispatch` | tui_gemini_commit_generator.py:344-411 | while help is shown every chord but F1, Escape and Ctrl-q leaves the state unchanged; F1 always flips the help flag; Escape and Ctrl-q close help if shown and otherwise exit; only they change the exit flag; no chord changes template, language, model or temperature |
| `KeyCommands.Click` | tui_gemini_commit_generator.py:242-262 | Generar starts a generation and Copiar copies the output, both guarded by the help flag; Salir exits and changes nothing else; "Cerrar (Esc)" flips the help flag; only Salir changes the exit flag |
| `KeyCommands.ExitOnlyByQuit` | tui_gemini_commit_generator.py:356-362 | a run of events that ends the loop contains an Escape or Ctrl-q press or a press of the Salir button |
| `KeyCommands.HelpFreezesState` | tui_gemini_commit_generator.py:344-411 | while help is shown, any sequence of chords other than F1, Escape and Ctrl-q leaves the whole state unchanged |
| `KeyCommands.HelpParity` | tui_gemini_commit_generator.py:399-401 | after n presses of F1 the help flag is flipped n times (two presses restore it) and everything but the focus is as before |
| `KeyCommands.TaskEndsGenerating` | tui_gemini_commit_generator.py:190-202 | once a task has handed back its outcome, the status is not "Generando..." |
| `KeyCommands.RejectedTemperatureEndsInError` | tui_gemini_commit_generator.py:196-201 | a temperature that `float` rejects ends, with no request sent, in status "Error" and output "Error: " followed by `float`'s message |
| `KeyCommands.TransportErrorEndsInError` | tui_gemini_commit_generator.py:196-201 | a transport error on the sent request ends in status "Error" and output "Error: " followed by its message |
| `KeyCommands.MissingKeyEndsInError` | tui_gemini_commit_generator.py:116-128 | with no API key no request is sent, the output is "Error: Falta GEMINI_API_KEY en entorno." and the status "Error" |
| `Tui.App.constructor` | tui_gemini_commit_generator.py:47-56 | the widgets start in the initial state |
| `Tui.App.ToggleHelp` | tui_gemini_commit_generator.py:234-238 | updates the fields exactly as `KeyCommands.ToggleHelp` |
| `Tui.App.FocusContext` | tui_gemini_commit_generator.py:219-221 | updates the fields exactly as a guarded focus move to the context area |
| `Tui.App.FocusPrompt` | tui_gemini_commit_generator.py:224-226 | updates the fields exactly as a guarded focus move to the prompt area |
| `Tui.App.FocusOutput` | tui_gemini_commit_generator.py:229-231 | updates the fields exactly as a guarded focus move to the output area |
| `Tui.App.QuitApp` | tui_gemini_commit_generator.py:215-216 | sets the exit flag, as `KeyCommands.QuitApp` |
| `Tui.App.CopyOutput` | tui_gemini_commit_generator.py:207-212 | updates the fields exactly as `KeyCommands.CopyOutput` |
| `Tui.App.GenerateCommit` | tui_gemini_commit_generator.py:187-204 | starts a task if and only if help is hidden, and updates the fields as `KeyCommands.StartGeneration` |
| `Tui.App.RunTask` | tui_gemini_commit_generator.py:193-202 | runs `Generation.Task` on the current fields and writes its outcome as `KeyCommands.CommitOutcome` |
| `Tui.App.Commit` | tui_gemini_commit_generator.py:197-201 | writes the reply or the error text and the status exactly as `KeyCommands.CommitOutcome` |
| `Tui.App.HandleClick` | tui_gemini_commit_generator.py:242-262 | every button press updates the fields exactly as `KeyCommands.Click` |
| `Tui.App.CopySelectedText` | tui_gemini_commit_generator.py:143-163 | updates the fields exactly as `KeyCommands.CopySelection` |
| `Tui.App.SelectAllText` | tui_gemini_commit_generator.py:167-183 | updates the fields exactly as `KeyCommands.SelectAll` |
| `Tui.App.HandleKey` | tui_gemini_commit_generator.py:344-411 | every chord updates the fields exactly as `KeyCommands.Dispatch` |

## Left out

- Layout and rendering are not modelled: `create_layout`, the panels, the help `Dialog`,
  `app.invalidate` and `Application.run`. This is prompt_toolkit code. Only its effect on focus
  appears, as the `landing` focus of a rebuilt layout.
- The focus order of Tab and Shift-Tab is prompt_toolkit's. Each press carries the control it
  moves to.
- Typing into the fields, and changing the language and model selectors, is editing done by
  prompt_toolkit. No handler of the program does it. In the model, template, language, model
  and temperature keep the values they had at start-up.
- Threads are not modelled. `RunTask` is one atomic step. In the program, the task reads the
  fields when its thread starts and writes output and status when the reply arrives. Key presses
  in between, and two tasks racing on the same widgets, are not captured.
- `requests.post`, `raise_for_status` and `r.json()` are one `endpoint` result. `git` is a
  `DiffSource`. `float` is `parseFloat`. Their internals and error messages are not modelled.
- The clipboard is the list of texts sent to it. A failing `pyperclip.copy` is not modelled.
- `json.dumps(body, indent=2)` is taken as the `dumped` text of a response. Its formatting is not
  modelled.
- The select-all selection itself, and the clearing of a selection by `copy_selection`, happen
  inside prompt_toolkit's buffer. Only the status and clipboard effects are modelled.
- Generation.Delivered: a truthy reply that is not a string is assigned to the output text area,
  and what prompt_toolkit then does is not modelled. The model treats such a reply as refused,
  with an error whose message (`nonTextError`) is a parameter.
- A mouse click on a text area or selector moves the focus inside prompt_toolkit and is not
  modelled. Mouse clicks on the buttons are (`KeyCommands.Click`).
- The literals `DEFAULT_PROMPT` and `HELP_CONTENT` are not modelled. The template is a parameter
  of the constructor.
- JSON numbers are `real`. The integer/float distinction of decoded JSON does not matter to the
  extraction.
