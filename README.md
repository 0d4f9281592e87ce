# Legal Document Assistant — a verified model of its core

The Legal Document Assistant is a browser client over an NLP backend. A user pastes or uploads a legal
document and asks for one of four things: a summary, the named entities, an answer to a question, or all
three at once. A question can be answered in three ways:

- extractive: a span of the text;
- generative: a language model answers from the text;
- retrieval-augmented (RAG): a language model answers from the best-matching sentence windows of the text.

This project models three parts of that system in Dafny and proves what each of them guarantees.

- **The client session** (`frontend/src/App.jsx`).
  - Modules: `AppModel`, `AppState`, `AppProperties`.
  - The `App` component's nine state slots are the fields of the class `AppState.App`:
    - the active tab and the QA sub-mode;
    - the text and the question;
    - `loading`;
    - the summary, the entities and the QA result;
    - the error.
  - Every event handler is a method that assigns the fields in the handler's order.
  - An asynchronous handler is split at its `await`:
    - `Begin` (or `HandlePdfUpload`) validates the input, clears the outputs, sets `loading` and returns the request it would send;
    - `Finish` takes the outcome and stores the reply or the error, then clears `loading`.
  - Each method is proved equal to a transition function on the value `AppModel.View`. `AppProperties` proves what those transitions guarantee.
  - A ghost multiset of outstanding requests keeps the invariant "while loading, some request is pending".
  - Submit buttons are `disabled={loading}`, hence `Begin` requires `!loading`.
  - The upload input is not disabled, so `HandlePdfUpload` has no such requirement.
  - Nothing cancels a request, so `Finish` applies to whatever the state is when the reply arrives.
- **Sentence-window chunking** (`src/rag.py`, module `Rag`, with the generic modules `Strides`, `Lists` and `Scan`).
  - `chunk_text` receives the output of the sentence splitter as a list of sentences.
  - Its loop visits the indices 0, step, 2·step, … with `step = max_sentences_per_chunk - overlap`.
  - At each index it space-joins and strips the window `sentences[i : i + max]`, and appends the result if it is not empty. It stops after one window when the step is zero.
  - That loop is the method `Scan.CollectNonEmpty`. It is written once over an arbitrary function from index to string; `Rag.ChunkText` runs it on the window texts.
  - Its specification is proved equal to a reference definition: the list of all window texts, with the empty ones dropped.
  - `answer_question_rag` is modelled up to its early exit and the `"\n\n"` join of the retrieved chunks. The ranking and the language model are parameters.
- **Prompting the language model** (`src/groq_qa.py`, module `GroqQa`).
  - The context is truncated to 20000 characters and placed in a fixed prompt template.
  - The missing-key check comes before any request.
  - The answer is read out of the chat-completion reply, with Python's errors for missing keys, indexes and `null`s.
  - The HTTP call is the parameter `post`.

Shared pieces:

- `Common` holds `Option`, `Result` and `Field`. `Field` is a JSON field that is `Missing`, `Null` or `Present`, because the client tells `undefined` from `null`.
- `Text` models:
  - JavaScript's `trim`, over the JavaScript white-space set;
  - Python's `str.strip()`, over the `str.isspace` set;
  - Python's `str.join`.

The client model keeps these behaviours of the code:

- a score of exactly 0 shows "N/A";
- generative and RAG answers carry the span -1..-1;
- a failed validation keeps earlier outputs beside its error message;
- a click on the active tab or sub-mode still clears the outputs;
- the PDF upload is not guarded by `loading`;
- a successful reply need not leave a result: a summary reply without a summary, or an entity reply without entities, ends with neither a result nor an error (`AppProperties.SuccessMayShowNothing`).

## Model

| member | source | states |
|---|---|---|
| AppState.App.constructor | frontend/src/App.jsx:18-29 | The session starts on the Summary tab, in extractive mode, with empty text, question, outputs and error, not loading, and no request pending. |
| AppState.App.ResetOutputs | frontend/src/App.jsx:31-36 | The new state is `Cleared` of the old one: summary "", entities [], no QA result, error "". Nothing else changes. |
| AppState.App.SetText | frontend/src/App.jsx:634-639 | Typing replaces the text and nothing else. |
| AppState.App.SetQuestion | frontend/src/App.jsx:555-560 | Typing replaces the question and nothing else. |
| AppState.App.SelectTab | frontend/src/App.jsx:678-681 | A tab click clears the outputs, then selects the tab, with no guard. |
| AppState.App.SelectQaMode | frontend/src/App.jsx:519-546 | A sub-mode click clears the outputs, then selects the mode. |
| AppState.App.HandlePdfUpload | frontend/src/App.jsx:38-45 | With no file, nothing changes and nothing is sent. Otherwise outputs are cleared, loading is set and an /extract_text request is pending, even while another request is outstanding. |
| AppState.App.Begin | frontend/src/App.jsx:119-129 | A submit handler up to its fetch. The new state is `Started` and the request is `Issued`. A request is pending exactly when one is issued. The "loading implies pending" invariant is kept. |
| AppState.App.Submit | frontend/src/App.jsx:563-572 | The primary button runs the handler chosen by the tab and the QA sub-mode, with `Begin`'s guarantees. |
| AppState.App.Finish | frontend/src/App.jsx:79-92 | A handler after its reply. The new state is `Completed`: reply stored or error shown, then loading cleared. The request is no longer pending. |
| AppState.App.DownloadSummary | frontend/src/App.jsx:224-237 | A file is produced exactly when the summary is not empty. It holds the summary and is named summary.txt. The state is not changed. |
| AppState.App.DownloadEntities | frontend/src/App.jsx:239-253 | A file is produced exactly when there are entities. It holds them and is named entities.json. The state is not changed. |
| AppProperties.ResetOutputsClearsOnlyOutputs | frontend/src/App.jsx:31-36 | Reset empties summary, entities, QA result and error. It keeps tab, mode, text, question and loading. The spinner then shows exactly while loading. |
| AppProperties.SelectTabClears | frontend/src/App.jsx:678-681 | Any tab click clears all outputs, including a click on the active tab. Clicking twice is clicking once. |
| AppProperties.SelectQaModeClears | frontend/src/App.jsx:519-546 | Any sub-mode click clears all outputs, including a click on the active mode. Clicking twice is clicking once. |
| AppProperties.BlankTextSubmit | frontend/src/App.jsx:73-76 | Blank text sets exactly the capability's message. No request is sent, loading is unchanged and earlier outputs are kept. |
| AppProperties.QaChecksTextFirst | frontend/src/App.jsx:120-127 | "Please enter context text." appears iff the text is blank. "Please enter a question." appears iff the text is not blank and the question is. No message appears iff both are filled. |
| AppProperties.OtherSubmitsIgnoreQuestion | frontend/src/App.jsx:257-260 | Summary, entities and combined validation pass iff the text is not blank. The question plays no part. |
| AppProperties.AcceptedSubmit | frontend/src/App.jsx:77-78 | A valid submit clears all outputs and sets loading. It issues its capability's request and shows the spinner. |
| AppProperties.Dispatch | frontend/src/App.jsx:565-571 | "extractive" posts to /qa and "generative" to /qa_gen; any other mode posts to /qa_rag. Summary sends the text with 256 new tokens, entities the text alone, generative QA 128 new tokens and RAG top 3. The combined tab sends `question` or null. |
| AppProperties.CompletionEndsLoading | frontend/src/App.jsx:85-92 | Every completion clears loading. A failure shows `detail` if it is a non-empty string, else the capability's default, so the error is never empty. A throw shows its message. |
| AppProperties.FailedSubmitShowsOnlyError | frontend/src/App.jsx:77-89 | A validated submit whose reply fails ends with an error, no outputs and no loading. |
| AppProperties.SuccessMayShowNothing | frontend/src/App.jsx:87-110 | A validated summary or entity request whose successful reply has no summary, or no or an empty entity list, ends with no output, no error, no spinner and loading cleared. |
| AppProperties.SpanlessAnswers | frontend/src/App.jsx:172-177 | Generative and RAG answers are stored with a null score and the span -1..-1. Retrieved chunks are dropped, so equal answers give equal states. |
| AppProperties.ExtractiveStoresReply | frontend/src/App.jsx:136-138 | An extractive reply is stored unchanged. |
| AppProperties.MissingFieldsNormalised | frontend/src/App.jsx:276-278 | No entity list becomes [], no `qa` object becomes null, and no extracted text becomes "". |
| AppProperties.CompletionIgnoresModes | frontend/src/App.jsx:79-92 | A completion applies the same way under any tab and sub-mode and leaves them as they are. |
| AppProperties.ScoreLineCases | frontend/src/App.jsx:402-405 | A score line shows iff extractive mode holds a result whose score is not null. A score of exactly 0, or a missing one, reads N/A. |
| AppProperties.AnswerLineCases | frontend/src/App.jsx:400 | The answer line shows a non-empty answer as it is, and "(no answer found)" for an absent, null or empty one; it is never empty. |
| AppProperties.SpinnerExcludesOutputs | frontend/src/App.jsx:332 | The spinner shows iff loading with no summary, entities, QA result or error. It never shows beside an error. |
| AppProperties.EntitiesScenario | frontend/src/App.jsx:95-115 | A one-sentence entity extraction, from the click to the stored entity list. |
| AppProperties.GenerativeScenario | frontend/src/App.jsx:147-183 | Generative QA sends 128 new tokens. Of a reply that also holds a score, a span and retrieved chunks, only the answer is kept, and the answer line shows it. |
| Text.StripSpec | src/rag.py:51 | The strip is empty iff every character is white space. Otherwise it starts and ends with a non-space and is a slice of the input with only white space outside it. |
| Text.BlankIsTrimEmpty | frontend/src/App.jsx:73 | `!s.trim()` holds iff every character is JavaScript white space. |
| Text.StripIdempotent | src/rag.py:51 | Stripping twice is stripping once. |
| Text.JoinLength | src/rag.py:50 | A join is as long as its parts plus one separator between each pair of neighbours. |
| Text.JoinRangeSlice | src/rag.py:49-50 | Joining an index range is joining the slice it delimits. |
| Text.JoinConcat | src/rag.py:113 | Joining `a + b` is joining `a`, the separator, then joining `b`. |
| Strides.WindowCountBounds | src/rag.py:49-54 | ⌈n/step⌉ indices 0, step, … reach `n`, and one fewer stays below it. |
| Strides.StartInside | src/rag.py:49-54 | Every visited index lies inside the list. |
| Lists.NonEmptyFromSpec | src/rag.py:51-53 | Filtering keeps at most its input. Everything kept is a non-empty input string, and every non-empty input string is kept. |
| Lists.NonEmptyFromEmpty | src/rag.py:101 | Nothing is kept iff every string is empty. |
| Scan.ScanStep | src/rag.py:48-54 | One loop turn, appending a non-empty result and advancing by the step, preserves what the loop ends with. |
| Scan.CollectNonEmpty | src/rag.py:46-57 | The `while` loop of `chunk_text` returns `Collected`: the non-empty results at 0, step, … below n, or the first result alone when the step is 0. |
| Scan.Visited | src/rag.py:49-54 | There is one visited index per window, ⌈n/step⌉ of them. |
| Scan.ScanVisits | src/rag.py:48-56 | From the j-th index on, the loop appends exactly the non-empty results from j on, in order. |
| Scan.ScanCollectsNonEmpty | src/rag.py:46-57 | The loop's result is the non-empty visited results, in order. |
| Rag.WindowIsSlice | src/rag.py:49 | The window is Python's slice `s[i:i+w]`. A positive width from inside the list gives `s[i..min(i+w,n)]`. A non-positive width whose stop is not negative gives nothing. |
| Rag.WindowJoinIsJoin | src/rag.py:50 | The joined window is `" ".join` of the window. |
| Rag.WindowTextIsStrippedJoin | src/rag.py:49-50 | For an index inside the list, the chunk text is the stripped space-join of `sentences[i..min(i+max,n)]`. |
| Rag.ChunkText | src/rag.py:46-57 | `chunk_text` returns `Chunks`, the loop's result over the window texts, whenever `overlap <= max` (or there are no sentences). |
| Rag.Windows | src/rag.py:49-54 | There are ⌈n/step⌉ windows, and window k is the text at index k·step. |
| Rag.ChunksAreNonEmptyWindows | src/rag.py:47-57 | For a positive step, the chunks are the non-empty window texts in window order. |
| Rag.WindowTextStripped | src/rag.py:50 | A window's text is already stripped. |
| Rag.ChunksShape | src/rag.py:47-57 | No sentences give no chunks. There are at most ⌈n/step⌉ chunks, or at most one for step 0. Every chunk is non-empty and stripped. |
| Rag.ConsecutiveWindowsOverlap | src/rag.py:49-54 | Two consecutive full windows share exactly `overlap` sentences. |
| Rag.StripOfTrimmed | src/rag.py:51 | A string with no white space at either end strips to itself. |
| Rag.DocstringExample | src/rag.py:42-44 | [s1..s6] with windows of 3 and overlap 1 give ["s1 s2 s3", "s3 s4 s5", "s5 s6"]. |
| Rag.AnswerQuestionRag | src/rag.py:90-121 | With no chunks the reply is the fixed message with no retrieved chunks. An error comes only from the model call about the joined top chunks. An answer is the model's answer about exactly the chunks it reports. |
| Rag.NoChunksEarlyExit | src/rag.py:100-105 | With no chunks, the reply is the fixed message with no retrieved chunks. The ranking, the key and the model are not consulted. |
| Rag.NoChunksOnlyForBlankWindows | src/rag.py:100-101 | The early exit happens iff every default window strips to nothing. |
| Rag.AsksAboutFocusedContext | src/rag.py:107-121 | Otherwise the model is asked about the "\n\n"-join of the retrieved chunks. The reply holds its answer and those chunks. |
| Rag.FocusedContextSplits | src/rag.py:113 | The focused context is the first chunk, a blank line, then the focused context of the rest. |
| GroqQa.Truncate | src/groq_qa.py:136-137 | The sent context is a prefix of the original, of length min(n, 20000). |
| GroqQa.BuildPrompt | src/groq_qa.py:105-121 | The prompt opens with the fixed header and closes with the fixed footer. |
| GroqQa.PromptLayout | src/groq_qa.py:109-121 | The prompt is, in order: the fixed header ending "CONTEXT:\n", the context verbatim, "\n\nQUESTION:\n", the question verbatim, the fixed footer. |
| GroqQa.PromptDeterminesInputs | src/groq_qa.py:105-121 | Given the context length, the prompt determines the context and the question. |
| GroqQa.ExtractAnswerSpec | src/groq_qa.py:170-174 | An answer comes only from a present `choices[0].message.content`, stripped. A missing key or index is an error, never a default. |
| GroqQa.ExtractAnswer | src/groq_qa.py:170-174 | Reading the reply fails only with a format error or a `null` error. The format error is raised exactly for a missing `choices`, an empty choice list, a missing `message` or a missing `content`. |
| GroqQa.AnswerQuestionGroq | src/groq_qa.py:124-176 | The call fails with the missing-key error iff the key is absent or empty. An answer is only the stripped content of a status-200 reply to the truncated prompt. A status error never carries 200. |
| GroqQa.MissingKeyFailsFirst | src/groq_qa.py:130-133 | With no key, or an empty one, the call fails whatever the API would answer. |
| GroqQa.SentPromptBounded | src/groq_qa.py:135-139 | The prompt carries at most 20000 context characters, a prefix of the context, and the whole context when it is short enough. |
| GroqQa.OnlyLeadingContextMatters | src/groq_qa.py:135-139 | Contexts that agree on their first 20000 characters get the same answer. |

## Left out

- HTTP and the browser:
  - `fetch`, `FormData` and `res.json()` become the `Outcome` of a request;
  - the Blob, object-URL and anchor-click mechanics of the downloads become the `Download` value;
  - the reset of the file input's value after an upload is not modelled;
  - JSX markup and styling are not modelled.
- Concurrency:
  - overlapping requests are modelled only as a ghost multiset of pending capabilities;
  - the order in which replies arrive is free, because nothing cancels a request.
- AppState.App.Finish:
  - `setSummary(data.summary)` can store `undefined`. The model stores "" instead. Every read of the summary is a truthiness test, so the two behave alike.
  - A `detail` that is truthy but not a string becomes its string form in JavaScript. The model takes `detail` to be a string.
- AppModel.ScoreLineOf: the extractive score is an opaque real number. Its formatting with three decimals, NaN and -0 are not modelled.
- Text.StripSpec: white space is the code points JavaScript and Python list for the Basic Multilingual Plane. Nothing beyond those is modelled.
- Outside the modelled core:
  - `sent_tokenize` and the nltk download;
  - `load_embedder`, `build_index` and `retrieve_top_k`, which are a foreign model and floating-point cosine scores. Ranking is the parameter `retrieve`.
- Rag.ChunkText: with `overlap > max_sentences_per_chunk` and a non-empty input, the loop never ends. That case is excluded by the precondition.
- The Groq HTTP request is the parameter `post`:
  - its headers, payload, model name and timeout are not modelled;
  - `load_dotenv` and the environment lookup become the `apiKey` parameter.
- GroqQa.ExtractAnswerSpec covers reply fields that are missing, `null` or of the expected type. Other JSON types in the reply, and a body that does not decode, are not modelled.
- `src/qa.py`, `src/summarizer.py`, `src/config.py` and `app/main.py` are not part of this model.
