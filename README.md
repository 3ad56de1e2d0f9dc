# Ai-Codify: Idea Crafter wizard and CodeMentor input gate, in Dafny

The repository holds two small Streamlit pages in front of hosted
chat-completion APIs. This project models the logic those pages own.

**Idea Crafter** (`app.py`) is a three-step wizard. It keeps `step`,
`user_topic`, `prompt` and `idea` in the per-browser session state.

- Step 0 takes a topic. The topic must not be blank after `strip()`, and it is stored stripped.
- Step 1 takes four answers. When none is blank, it builds the prompt from a fixed template.
- Step 2 calls the language model only while `idea` is empty, and shows the idea.
- "Generate Another Idea" clears the topic and the idea, and returns to step 0.

**CodeMentor** (`project/app.py`) chooses the code to submit.

- An uploaded file is used first. It is refused above 500 lines by `splitlines()`.
- Otherwise the pasted text is used. It is refused above 1000 words by `split()`.
- Five independent buttons then each send that code to one adapter and offer the answer for download.

Files:

- `wrappers.dfy`: `Option`, standing for Python's `None` or a present value.
- `pytext.dfy` (module `PyText`): Python's `str.isspace` character set, and `strip()`, `splitlines()` and `split()` with their counts.
- `idea_crafter.dfy` (module `IdeaCrafter`):
  - `Session`: the value of the four session keys.
  - One pure function per branch of `main`.
  - `Run` for one execution of `main`, and `Runs` for a sequence of them.
  - `SessionState`: a class whose fields are the session keys. Each of its methods updates them in place and is proved against the pure functions. A ghost counter `generatorCalls` counts the model calls.
- `code_mentor.dfy` (module `CodeMentor`):
  - `SelectCode`: the size gate.
  - `Dispatch`: what the five buttons do.
  - `RunButtons`: the five button blocks in sequence, proved against `Dispatch`.

The model call `get_gpt4o_mini_response` is a parameter `generate: string -> string`.
The five CodeMentor adapters are a parameter `adapter: (Action, string) -> string`.
An uploaded file is given as its decoded text.

## Model

| member | source | states |
|---|---|---|
| PyText.TrimLeft | app.py:47-50 | the leading-whitespace pass of `strip()` returns a string no longer than its input that does not start with whitespace (Python's full `isspace` set) |
| PyText.TrimLeftSplits | app.py:47-50 | what that pass keeps is a suffix of the input, and everything it drops is whitespace |
| PyText.TrimRight | app.py:47-50 | the trailing-whitespace pass of `strip()` returns a string no longer than its input that does not end with whitespace |
| PyText.TrimRightSplits | app.py:47-50 | what that pass keeps is a prefix of the input, and everything it drops is whitespace |
| PyText.Strip | app.py:47-50 | `strip()` returns a string no longer than its input with no whitespace at either end |
| PyText.StripIsSlice | app.py:47-50 | what `strip()` keeps is a slice `s[i..j]` of its input, and everything before `i` and after `j` is whitespace |
| PyText.IsBlank | app.py:47 | the test `s.strip() == ""`; `BlankIffAllSpace` gives its meaning |
| PyText.BlankIffAllSpace | app.py:47 | `s.strip() == ""` holds exactly when every character of `s` is whitespace (both directions) |
| PyText.StripIdempotent | app.py:50 | stripping the stored topic again changes nothing |
| PyText.LinesFrom | project/app.py:45 | no line produced by the `splitlines()` scan contains a line boundary |
| PyText.SplitLines | project/app.py:45 | `splitlines()` of the uploaded text: the scan from an empty current line; no line contains a boundary |
| PyText.LineCount | project/app.py:45 | `len(code.splitlines())`, the number compared with 500; `SplitTerminated` and `TrailingNewlineAddsNoLine` pin down what it counts |
| PyText.SplitTerminated | project/app.py:45 | round trip: `splitlines()` of lines each ended by "\n" gives back exactly those lines, so their number is the count |
| PyText.TrailingNewlineAddsNoLine | project/app.py:45 | a final "\n" after an unterminated last line adds no empty line to `splitlines()` |
| PyText.WordsFrom | project/app.py:54 | every word produced by the `split()` scan is non-empty and has no whitespace |
| PyText.Words | project/app.py:54 | `split()` of the pasted text: every word is non-empty and has no whitespace |
| PyText.WordCount | project/app.py:54 | `len(code.split())`, the number compared with 1000; `SplitSpaced` and `NoWordsIffAllSpace` pin down what it counts |
| PyText.SplitSpaced | project/app.py:54 | round trip: `split()` of non-empty, whitespace-free words joined by spaces gives back exactly those words |
| PyText.NoWordsIffAllSpace | project/app.py:54 | a text has zero words exactly when it is all whitespace (both directions) |
| IdeaCrafter.PromptHoldsParts | app.py:66-69 | the prompt holds every fixed piece of the template and the topic and the four answers, each verbatim, in template order, each right after the ones before it |
| IdeaCrafter.PromptIsConcat | app.py:66-69 | the f-string "I want to work in {topic}, solve the problem of {problem}, create an impact on {impact}, and learn {skills}. I will mainly use {platform}." is its eleven pieces written one after the other |
| IdeaCrafter.PromptNamesTopic | app.py:67 | the stored topic stands in the prompt right after "I want to work in " |
| IdeaCrafter.Prompt | app.py:66-69 | the f-string built from the template pieces, the stored topic and the four raw answers; `PromptIsConcat`, `PromptHoldsParts` and `PromptNamesTopic` state what it holds |
| IdeaCrafter.WithDefaults | app.py:34-39 | a key that is present keeps its value; a missing `step`, `user_topic` or `idea` gets 0, "" or ""; `prompt` gets no default |
| IdeaCrafter.Store | app.py:34-88 | the keys a run leaves behind: `step`, `user_topic` and `idea` are present with the session's values; `prompt` is present once written (line 71), as there is no default for it (`DefaultsOnlyFillMissingKeys` shows the defaults then change nothing) |
| IdeaCrafter.DefaultsOnlyFillMissingKeys | app.py:34-39 | a new session starts at step 0 with an empty topic and idea and no prompt; rerunning the defaults over a stored session changes nothing |
| IdeaCrafter.RerunKeepsStoredState | app.py:34-39 | a rerun of `main` on the stored keys behaves as a run on the session itself |
| IdeaCrafter.AfterTopic | app.py:46-51 | step becomes 1 exactly when the topic is not blank; then the stored topic is the stripped input, non-empty, with no whitespace at either end; otherwise the session is unchanged; prompt and idea are never touched |
| IdeaCrafter.AnyBlank | app.py:63 | the guard of the details form: some answer is blank after `strip()` |
| IdeaCrafter.AfterDetails | app.py:62-72 | step becomes 2 exactly when none of the four answers is blank; then the prompt is the template over the stored topic and the raw answers; otherwise the session is unchanged, and the prompt is not written |
| IdeaCrafter.AfterRender | app.py:76-79 | the step, topic and prompt are kept; a stored idea is reused unchanged; an empty one is replaced by the generator's answer to the stored prompt |
| IdeaCrafter.AfterReset | app.py:85-88 | step 0, empty topic and idea, and the prompt left as it was |
| IdeaCrafter.Run | app.py:42-88 | one run of `main` moves the step only 0 to 1, 1 to 2 or 2 to 0; it calls the generator exactly once when in step 2 with no idea, and never otherwise; it preserves the wizard invariant `Valid` (step in 0..2, stripped non-empty topic from step 1 on, a prompt naming that topic in step 2) |
| IdeaCrafter.FormsActOnlyInTheirStep | app.py:42-72 | a topic form submitted outside step 0, or a details form submitted outside step 1, has the effect of a plain rerun |
| IdeaCrafter.Runs | app.py:30-88 | over any sequence of reruns starting from a valid session, the session stays valid |
| IdeaCrafter.AtMostOneGenerationPerEntry | app.py:76-79 | over any sequence of reruns, the generator calls are at most the number of moves into step 2 plus one, if the start is a step 2 still awaiting its idea, provided the generator never answers "" |
| IdeaCrafter.RenderIdempotent | app.py:76-79 | after a render that received a non-empty answer no further call is due, and rendering again changes nothing |
| IdeaCrafter.EmptyAnswerIsRequested | app.py:76-79 | when the generator answers "", each of n re-renders calls it again: n calls, and the session is unchanged |
| IdeaCrafter.TopicLeg | app.py:46-51 | a non-blank topic on a new session leads to step 1 with the stripped topic, a valid session, and nothing else changes |
| IdeaCrafter.DetailsLeg | app.py:62-72 | four non-blank answers in step 1 lead to step 2 with the prompt of the stored topic and those answers, without a generator call |
| IdeaCrafter.ResetLeg | app.py:76-88 | in step 2 with no idea, the rerun that shows the idea calls the generator once, and "Generate Another Idea" in the next rerun returns to step 0 keeping only the prompt, without a further call |
| IdeaCrafter.DetailsThenReset | app.py:62-88 | from step 1, the answers, the rerun that shows the idea and the reset end at step 0 with the prompt of those answers, after one call and one entry into step 2 |
| IdeaCrafter.RoundTrip | app.py:42-88 | from a new session, a non-blank topic, the rerun that shows the questions, four non-blank answers, the rerun that shows the idea and "Generate Another Idea" lead back to step 0 with empty topic and idea and the prompt of those inputs; there is one generator call and one entry into step 2, provided the generator's answer is non-empty |
| IdeaCrafter.SessionState.constructor | app.py:34-39 | the first run of a session writes every default; the session is valid and no call has been made |
| IdeaCrafter.SessionState.SubmitTopic | app.py:46-51 | the fields become `AfterTopic` of the old fields; no generator call |
| IdeaCrafter.SessionState.SubmitDetails | app.py:62-72 | the fields become `AfterDetails` of the old fields; no generator call |
| IdeaCrafter.SessionState.RenderResult | app.py:76-82 | the fields become `AfterRender` of the old fields; the call counter rises by one exactly when no idea was stored; the idea shown is the stored one |
| IdeaCrafter.SessionState.Reset | app.py:85-88 | the fields become `AfterReset` of the old fields |
| IdeaCrafter.SessionState.Rerun | app.py:41-88 | one run of `main` on the object: the fields become `Run` of the old fields, and the counter rises by `Run`'s call count |
| CodeMentor.SelectCode | project/app.py:43-58 | with a file, code is present exactly when the file has at most 500 lines; without one, exactly when the pasted text is non-empty with at most 1000 words; accepted code is the input verbatim |
| CodeMentor.Truthy | project/app.py:61 | the `and code` test of every button block (lines 61, 78, 94, 113, 136): a selected, non-empty code |
| CodeMentor.FileOverridesPaste | project/app.py:43-52 | when a file is uploaded, the pasted text never changes the result, even when the file is refused |
| CodeMentor.LineCeilingBoundary | project/app.py:45-51 | a file of exactly 500 lines is accepted and one of 501 lines gives `None`, whatever is pasted |
| CodeMentor.WordCeilingBoundary | project/app.py:52-56 | exactly 1000 pasted words are accepted and 1001 words give `None` |
| CodeMentor.EmptyAndBlankInput | project/app.py:52-58 | no file and nothing pasted gives `None`; pasted whitespace only is accepted and is truthy |
| CodeMentor.EmptyFileAcceptedButInert | project/app.py:43-51 | an empty uploaded file is accepted as "" and is not truthy, so no button acts on it |
| CodeMentor.EachPressedOnce | project/app.py:61-136 | in the button order, each pressed button occurs exactly once and an unpressed one never |
| CodeMentor.FileName | project/app.py:72 | the download file name of each button (lines 72, 88, 107, 128, 151) |
| CodeMentor.Dispatch | project/app.py:61-156 | what the five button blocks produce: one offer per pressed button, in page order, when the code is truthy; `DispatchMeaning` states it element by element |
| CodeMentor.DispatchMeaning | project/app.py:61-156 | nothing is called when the code is `None` or ""; otherwise there is one offer per pressed button, in page order; each offer is that button's adapter applied to the selected code, with that button's file name |
| CodeMentor.Press | project/app.py:61-75 | one button block adds the offer of its adapter exactly when it is pressed and the code is truthy |
| CodeMentor.RunButtons | project/app.py:61-156 | the five button blocks, run in sequence, produce exactly `Dispatch` of the code and the pressed buttons |
| CodeMentor.Page | project/app.py:43-156 | the offers of the whole page are exactly `Dispatch` of the selected code: when the code is truthy every pressed button gets one offer; a refused or missing input reaches no adapter; every adapter receives the uploaded text, or the pasted text when there is no file, and its answer is offered unchanged |

## Left out

- `get_gpt4o_mini_response` (app.py:14-27) is the parameter `generate`. Its vendor call, model name, token limit, `print`, key and base URL are not modelled. Its error path returns "Error: " followed by the message. That answer is non-empty, so it is stored as the idea and reused like any other answer. Within one `Runs` trace `generate` is one fixed function, so the same prompt always gets the same answer, which the real model call does not promise. No proved property relies on that: `AtMostOneGenerationPerEntry` assumes only that every answer is non-empty, and `SessionState.RenderResult` takes its generator afresh on each call.
- The adapters in project/openai_client.py are the parameter `adapter`. `refactor_code`, `code_feedback`, `suggest_best_practices` and `remove_code_errors` are not defined in that file. Client construction and exception handling are not part of this model.
- The adapters are taken to return strings, so the `str()` conversion at project/app.py:101, 120-124 and 143-147 is the identity. A reply whose content is `None` is not modelled.
- Streamlit rendering is not modelled: titles, `st.write`, spinners, warning, error and success banners, the download button's label and MIME type, and the uploader's file-type filter.
- Streamlit's widget rerun mechanics are reduced to events. The model takes one `Event` per rerun, and any set of pressed buttons per page run. `Run` and `Runs` accept any event in any step, not only the widgets the page has drawn in that rerun (for instance "Generate Another Idea" before the idea was shown); the invariants are proved for all of them. A form takes effect in the rerun it submits, and the page of the new step is drawn only by the next rerun; `RoundTrip` follows that order, with a plain rerun after each form.
- UTF-8 decoding of the uploaded bytes (project/app.py:44) is not modelled. A decode failure is a library exception.
- `load_dotenv` and reading the environment are not modelled.
- `AfterReset` follows app.py:85-88: it clears `user_topic` and `idea`, sets `step` to 0, and leaves `prompt` in place.
- The five buttons are drawn even without code; without truthy code they call nothing.
- `SessionState`'s four branch methods require the step whose branch they model. `Rerun` is the caller that chooses the branch. `RenderResult` also requires the prompt key to exist when it is read; `Run` and `Valid` show that this always holds.
