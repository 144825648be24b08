# AI Debate Arena: a Dafny model of the debate core

The AI Debate Arena has two language-model agents debate a topic. The
OpenAI agent argues for it and the Gemini agent argues against it, each
using background documents the user uploaded. The Streamlit page then
shows the transcript round by round, with a closing summary.

This project models the logic behind that and proves what it guarantees.

- **`Orchestrator`** (main.py). The class `DebateManager` holds the two
  agents. Its method `RunDebate` (`run_debate`) builds the prompts and hands
  them to `Orchestrate`, which loops over the rounds. Each round, the
  affirmative agent and then the negative agent is called on a shared,
  append-only message history.
  - The two prompts switch to the rebuttal wording after the first round.
  - One summary call to the OpenAI agent follows.
  - Any failed call turns the result into `(None, None)`.

  The method is proved equal to a value-level specification, `Debate`.
- **`OrchestratorProperties`** proves, for every behaviour of the agents:
  - the schedule of calls;
  - the history each call receives;
  - the shape of the transcript;
  - all-or-nothing failure.
- **`PromptFraming`** states which stance, which document and which
  wording each prompt carries.
- **`Documents`** models `extract_text_from_file`, a dispatch on the media
  type with `""` fallbacks, and `extract_text_from_multiple_files`, which
  joins the per-file texts with single spaces.
- **`Sanitize`** models `sanitize_text`:
  - tag removal, as a scanner with the semantics of `re.sub`;
  - Python's `str.strip`;
  - entity decoding, an uninterpreted parameter;
  - deletion of the Markdown characters.
- **`App`** models `run_debate_with_status` and the round label the page
  shows.

The two agents are one *oracle*. It receives a call and either fails (the
agent raised) or returns the reply text and the agent's new messages. A
call records:

- its position in the run;
- the agent it goes to;
- the prompt;
- the history it is given.

Because the position is part of the call, a single oracle can stand for
any sequence of (non-deterministic) replies within one debate. Messages are opaque values
of a type parameter.

## Model

| member | source | states |
|---|---|---|
| `Orchestrator.DebateManager.constructor` | main.py:10-24 | the manager keeps the two agents it is built with |
| `Orchestrator.DebateManager.RunDebate` | main.py:26-61 | returns exactly the transcript, summary and calls of the specification `Debate` for the prompts built from the topic and the two documents; `num_rounds` defaults to 3 |
| `Orchestrator.DebateManager.Orchestrate` | main.py:33-61 | the loop over the rounds with its history, transcript and prompt updates, the summary call and the exception path, proved equal to `Debate`; the invariant ties the state after each round to `Rounds` |
| `Orchestrator.OpeningPrompt` | main.py:37-38 | an opening prompt opens with "You are arguing", the side's stance word (`FOR` or `AGAINST`) and the topic, and ends with the side's own document and the 100-word limit; its first letter is `Y` |
| `Orchestrator.RebuttalPrompt` | main.py:51-52 | a rebuttal opens with "Review the full debate history", the reply to the opponent and the opponent's document, and ends with "Continue arguing", the side's own stance word, the topic and the 100-word limit; its first letter is `R` |
| `Orchestrator.SummaryPrompt` | main.py:54 | the summary prompt opens with the request to summarise both sides of the debate on the topic and ends with the 200-word limit; its first letter is `S` |
| `Orchestrator.DebatePrompts` | main.py:37-52 | each opening ends with its own side's document, and each rebuttal carries the other side's document right after its lead |
| `Orchestrator.Step` | main.py:41-49 | one turn: a failed run is left alone; otherwise exactly one call is appended, numbered by the calls before it, to the side's agent with the prompt and the current history; the run goes on exactly when that call succeeds, and then the history only grows and the transcript grows by one entry |
| `Orchestrator.Rounds` | main.py:40-52 | after `n` rounds a running debate has made `2n` calls and holds `2n` entries; a failed one made between 1 and `2n` calls |
| `Orchestrator.Debate` | main.py:33-61 | outputs and summary are both present or both absent; a debate makes between 1 and `2n + 1` calls, and a successful one makes exactly `2n + 1` and returns `2n` entries |
| `Orchestrator.FailureIsFinal` | main.py:40-49 | once a call has failed, later rounds make no further call |
| `Orchestrator.FailedDebate` | main.py:60-61 | rounds that stop at a failed call give `(None, None)` after exactly the calls made so far |
| `OrchestratorProperties.ProducedPrefix` | main.py:43-48 | the messages produced by the first `i` calls are a prefix of those produced by the first `j >= i` |
| `OrchestratorProperties.ScheduleExtends` | main.py:40-55 | appending the scheduled next call keeps a run on the schedule |
| `OrchestratorProperties.RoundsTrace` | main.py:40-49 | after `m` rounds, every call was the scheduled one, the history is all new messages in call order, and the transcript holds the replies in order, or the run ended at its first failed call |
| `OrchestratorProperties.DebateTrace` | main.py:33-61 | a debate makes between 1 and `2n + 1` scheduled calls, all but the last successful; it returns outputs exactly when the last call succeeded, and then after `2n + 1` calls; outputs and summary are both present or both absent |
| `OrchestratorProperties.AllOrNothing` | main.py:33-61 | the result is `(None, None)` exactly when some call failed, and then no call follows the failed one |
| `OrchestratorProperties.SuccessfulDebate` | main.py:40-58 | a successful debate makes `2n + 1` calls and returns `2n` entries; entry `k` is `(affirmative, reply)` for even `k` and `(negative, reply)` for odd `k`, taken from call `k`; the summary is the reply of the OpenAI call on the summary prompt and all messages of the `2n` turns in call order |
| `OrchestratorProperties.CallOrder` | main.py:40-55 | call `k` is the `k`-th call; it goes to the OpenAI agent exactly when `k` is even; its prompt is its side's prompt for round `k / 2`, or the summary prompt after the rounds |
| `OrchestratorProperties.HistoryHandOff` | main.py:41-48 | each call receives the previous call's history extended by that call's new messages, so the negative turn sees the affirmative turn of its round |
| `OrchestratorProperties.HistoryOnlyGrows` | main.py:34-55 | the history one call receives is a prefix of the history every later call receives |
| `OrchestratorProperties.NoRounds` | main.py:40-58 | with `num_rounds <= 0` the only call is the summary call on an empty history, and success returns an empty transcript |
| `PromptFraming.TurnPromptFraming` | main.py:37-52 | in round 0 a side's prompt opens with its stance word and the topic and ends with its own document; from round 1 on it carries the opponent's document after the rebuttal lead and ends by telling the side to continue arguing the same stance on the topic; every prompt ends with the 100-word limit, and the first letter tells an opening from a rebuttal |
| `PromptFraming.OpeningOnlyInRoundZero` | main.py:37-52 | a side receives its opening prompt in round 0 and in no later round |
| `PromptFraming.OpeningIgnoresOpponentDocument` | main.py:37-38 | an opening does not depend on the opponent's document |
| `PromptFraming.RebuttalIgnoresOwnDocument` | main.py:51-52 | a rebuttal does not depend on the side's own document |
| `PromptFraming.SummaryFraming` | main.py:54 | the summary prompt depends on the topic alone, and it differs from every prompt of the rounds |
| `Documents.Join` | main.py:90 | `" ".join` gives the empty text exactly when there is no part or a single empty part |
| `Documents.JoinLength` | main.py:90 | `" ".join` of `n >= 1` parts is as long as the parts together plus `n - 1` |
| `Documents.JoinLayout` | main.py:90 | in the joined text, part `i` stands at its offset in input order, with one space before each part but the first |
| `Documents.NonEmpty` | main.py:72 | keeps exactly the page texts that are not empty, each as often as it occurs and in page order (a subsequence of the pages); pages that are all blank give no text |
| `Documents.ExtractText` | main.py:63-81 | gives `""` for every media type other than PDF, the two Word types and plain text, whenever the library raises, and for a PDF whose pages are all blank; a plain-text file gives its UTF-8 decoding |
| `Documents.PdfTextLayout` | main.py:70-72 | the text of a PDF holds the pages with text in page order, page `i` at its offset, one space before each but the first; its length is their total length plus one less than their number |
| `Documents.WordTextLayout` | main.py:73-75 | the text of a Word document holds every paragraph in order, paragraph `i` at its offset, one space before each but the first; its length is their total length plus one less than their number |
| `Documents.Texts` | main.py:89 | one extracted text per file, in file order |
| `Documents.MultipleFilesLayout` | main.py:83-90 | the combined text holds each file's text at its offset, in input order, separated by single spaces; its length is the sum of the lengths plus `n - 1` |
| `Documents.ExtractFromMultipleFiles` | main.py:83-90 | the combined text is empty exactly when there is no file or a single file without text |
| `Sequences.SubsequenceElements` | streamlit_app.py:71-78 | deleting elements never introduces one |
| `Sanitize.Without` | streamlit_app.py:77-78 | deleting a set of characters leaves none of them, and every other character as often as before |
| `Sanitize.WithoutIsSubsequence` | streamlit_app.py:77-78 | deleting characters keeps the others in their order |
| `Sanitize.WithoutTwice` | streamlit_app.py:77-78 | deleting one set and then another deletes their union |
| `Sanitize.FirstGt` | streamlit_app.py:71 | finds the first `>` and only the first, or reports that there is none |
| `Sanitize.TagLengthMatches` | streamlit_app.py:71 | the scanner's match at the front of a text is exactly the prefix that `</?[^>]+>` matches, so the match is unique |
| `Sanitize.StripTags` | streamlit_app.py:71 | tag removal only deletes characters: its result is a subsequence of its input |
| `Sanitize.NoAngleUnchanged` | streamlit_app.py:71 | text without `<` passes tag removal unchanged |
| `Sanitize.EmptyBracketsKept` | streamlit_app.py:71 | a bare `<>` is kept, because the pattern needs a character between the brackets |
| `Sanitize.TagRemoved` | streamlit_app.py:71 | a whole tag at the front is deleted, whatever follows it |
| `Sanitize.TagFreeUnchanged` | streamlit_app.py:71 | text in which no position starts a tag passes tag removal unchanged |
| `Sanitize.StripTagsTagFree` | streamlit_app.py:71 | after tag removal, no position starts a tag |
| `Sanitize.StripTagsIdempotent` | streamlit_app.py:71 | removing tags twice removes nothing more |
| `Sanitize.SpaceEnd` | streamlit_app.py:74 | finds the end of the white space (by Python's `isspace`) that starts at a position: every character before it is white space, the one at it is not |
| `Sanitize.SpaceStart` | streamlit_app.py:74 | finds the start of the white space that ends at a position, not looking before a lower bound: every character from it on is white space, the one before it is not |
| `Sanitize.Strip` | streamlit_app.py:74 | the result is the slice of the input between leading and trailing white space, and neither starts nor ends with white space |
| `Sanitize.StripUnchanged` | streamlit_app.py:74 | text without surrounding white space is its own strip |
| `Sanitize.StripIdempotent` | streamlit_app.py:74 | stripping twice strips nothing more |
| `Sanitize.RemoveEmphasis` | streamlit_app.py:77 | the alternation of `**`, `__`, `*` and `_` deletes exactly every `*` and `_`, doubled or single |
| `Sanitize.RemoveCodeMarks` | streamlit_app.py:78 | no backquote or `#` is left, and every other character is kept as often as it occurs |
| `Sanitize.MarkdownStepsOnlyDelete` | streamlit_app.py:77-78 | the two Markdown steps leave none of `*`, `_`, backquote or `#`, and keep every other character, as often as before and in order |
| `Sanitize.SanitizeText` | streamlit_app.py:65-80 | the sanitised text holds none of the four Markdown characters |
| `Sanitize.SanitizeTextSteps` | streamlit_app.py:71-78 | the result is the decoded text with the Markdown characters deleted; the text is stripped after tag removal and before decoding |
| `Sanitize.DecodedTagSurvives` | streamlit_app.py:65-80 | decoding runs after tag removal, so a reply without `<` whose decoding is `<b>` comes out as `<b>`, a tag, despite the promise of plain text |
| `Sanitize.PlainTextUnchanged` | streamlit_app.py:65-80 | stripped text with no tag and no Markdown character, which decoding leaves alone, comes out unchanged |
| `App.SanitizeTurns` | streamlit_app.py:92 | keeps the length, the sides and their order, and replaces each response by its sanitised form, which holds no Markdown character |
| `App.ShapeResult` | streamlit_app.py:90-97 | the result is `(None, None)` exactly when the transcript or the summary is `None` or empty; otherwise it is the sanitised transcript and summary |
| `App.RunDebateWithStatus` | streamlit_app.py:83-100 | returns the shaped result of a debate with the default three rounds on the manager's agents |
| `App.ShownDebate` | streamlit_app.py:89-94 | a result is shown exactly when the debate succeeded with at least one round and a non-empty summary; then entry `k` is the side of call `k` with its sanitised reply, and the summary is the sanitised reply of the summary call |
| `App.NoRoundsShowNothing` | streamlit_app.py:90 | a debate with no round shows `(None, None)`, even when its summary call succeeds |
| `App.FailureShowsNothing` | streamlit_app.py:95-97 | a debate in which any call failed shows `(None, None)` |
| `App.ShownSides` | streamlit_app.py:89-94 | a shown transcript has one entry per call of the rounds, the entries alternating affirmative and negative |
| `App.Status` | streamlit_app.py:89-97 | the transcript and the summary are shown together or not at all; a shown debate of the default three rounds has six entries, alternating affirmative and negative |
| `App.DisplayRound` | streamlit_app.py:169 | entry `i` is labelled round `r` with `2(r - 1) <= i < 2r`, so entries `2r - 2` and `2r - 1` share round `r` |
| `App.DisplayRoundIsCallRound` | streamlit_app.py:168-169 | the entry labelled round `r` came from a call made in round `r` of the debate, with that round's prompt for its side; no label exceeds the number of rounds |

## Left out

- Building the agents, the API keys and the network calls (main.py:13-24; streamlit_app.py:7-8) are left out. The agents are the oracle parameter.
- The asyncio event-loop setup (main.py:27-31) has no effect on the result and is not modelled.
- The content and quality of the agents' replies are not modelled. Replies are opaque strings, and messages are values of a type parameter.
- The PDF reader, the Word reader and UTF-8 decoding are left out. Each is a function parameter that either yields its text or fails.
- `Documents.ExtractText` takes the text of every page from one call of the PDF reader parameter. The source calls `page.extract_text()` once to test each page and again for each page with text (main.py:72); the model assumes the second call returns the same text as the first.
- `Documents.ExtractText` does not raise, because it is total. The source's `except` clause is the `None` result of the readers.
- `html.unescape` is a parameter with no assumed properties. Nothing is claimed about what decoding produces.
- `Sanitize.SanitizeText` does not promise tag-free output: the text is free of tags only before decoding (`Sanitize.StripTagsTagFree`), and decoding, which runs after tag removal (streamlit_app.py:71-74), can turn an encoded tag such as `&lt;b&gt;` into a tag that the page then renders as HTML (`Sanitize.DecodedTagSurvives`).
- `Orchestrator.DebateManager` holds the agents as one fixed oracle for the manager's whole lifetime, so every property is stated per debate. The page builds one manager per session and reuses it for every debate (streamlit_app.py:111-112, 151-156); replies that differ between two debates with the same topic, documents and round count are not modelled.
- `App.RunDebateWithStatus` does not model the `except` branch (streamlit_app.py:98-100). In the model nothing the function calls can raise: `run_debate` catches its own exceptions, and the sanitiser is total.
- The spinner, `st.error` and every other part of the Streamlit page are not modelled. That covers page setup, styling, widgets, session state, the warning about uploading documents for only one side, and the HTML rendering (streamlit_app.py:11-62, 103-195).
- The side labels `"affirmative"` and `"negative"` are the two values of `Orchestrator.Side`.
- `Orchestrator.DebateManager.RunDebate` evaluates the prompt f-strings once, before the loop. The loop then reassigns the two prompt variables to these strings after each round. The source re-formats identical strings each round, so the prompts are the same.
- The calls a run made are a ghost output of the model only. They let the contracts describe each call.
