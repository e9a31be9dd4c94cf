# Legal document analyzer: session, processor and routes

A Dafny model of the three parts of the legal document analyzer whose behaviour
can be stated precisely.

- **The browser session** (`frontend/src/App.js`). The React component holds the
  chosen file, the analysis, an error banner, the chat history, the message being
  typed and two loading flags. Its handlers pick a file, run the analysis and hold
  the chat. `session.dfy` models the state as a value (`Session.State`) with one
  function per transition. It also has a class `Session.App` whose handler methods
  update the same fields step by step and are proved to match those functions. Each
  asynchronous handler is split at its `await` into a start step and a completion
  step. The completion step takes what the request produced: a decoded `ok`
  response, a response that was not `ok`, or a thrown message.
  `session_runs.dfy` models runs of the page: the state, the requests in flight,
  and the events the rendered views offer. It proves an invariant that holds along
  every run starting from the initial state.
- **The document processor** (`backend/Agents.py`), in `agents.dfy`. It covers:
  - choosing a text reader by the lower-cased file extension;
  - rejecting text that is empty or whitespace only;
  - overlapping chunks of 1000 characters taken every 800 characters, with ids
    `"0".."n-1"`;
  - the 20000-character excerpt given to the analysis prompt;
  - the store that maps document ids to their collections;
  - the chat guard that refuses unknown ids.
- **The HTTP routes** (`backend/main.py`), in `server.dfy`: request validation, and
  how the processor's result or exception becomes a JSON body and a status code.

`text.dfy` holds the string helpers:
- whitespace trimming as JavaScript's `trim` does it;
- whitespace stripping as Python's `strip` does it, with its own whitespace set;
- ASCII lower-casing;
- Python's `str(n)` and its inverse.

`wrappers.dfy` holds `Option` and `Result`.

Three facts about the code shape the model:

- The handlers have no check that discards a response arriving for a document or
  analysis that has since been replaced. `handleSendMessage` writes back the history
  it captured before its `await`. `SessionRuns.StaleReplyWithoutViewGating` shows the
  effect. If a file were chosen while a question is in flight, the reply would
  restore the old history beside no analysis. The page never offers that
  interleaving, though. The file picker, drop zone and analyze button are rendered
  only in the upload view. That view is hidden whenever an analysis is held or
  loading. `SessionRuns.Reachable` and `SessionRuns.ChatReplyIsCurrent` prove that
  along every run the page allows, a reply lands on the history it was sent from.
- `process_document` creates the collection and writes the store entry before it
  calls the language model. A failed or malformed analysis therefore leaves the
  entry in `document_store`, and `ProcessDocument` states exactly that. Only an
  extraction failure or an empty or blank text leaves the store unchanged.
- `json.JSONDecodeError` is a subclass of `ValueError`. A model reply that is not
  valid JSON therefore reaches `/analyze` as a 400 carrying the decoder's message,
  not as a 500.

## Model

| member | source | states |
|---|---|---|
| `Session.App.constructor` | frontend/src/App.js:6-13 | The hooks start with no file, no analysis, empty strings, an empty history and both flags false; the session is Idle. |
| `Session.App.HandleFileSelection` | frontend/src/App.js:25-46 | A file replaces the old one and sets the file name. It clears analysis, error and chat history together. The loading flags and the typed message stay. No file changes nothing. |
| `Session.App.HandleTyping` | frontend/src/App.js:284 | The typed text becomes the message; nothing else changes. |
| `Session.App.HandleAnalyzeStart` | frontend/src/App.js:56-67 | Without a file, only the error becomes 'Please upload a document first.' and nothing is posted. Otherwise the file is posted, and loading starts while error, analysis and history are cleared in one step. |
| `Session.App.HandleAnalyzeComplete` | frontend/src/App.js:75-85 | On success the analysis is the payload. On failure the error is the thrown message, or the fixed message for a response that is not ok, and the analysis stays. Loading ends either way; the file and history stay. |
| `Session.App.HandleSendStart` | frontend/src/App.js:88-104 | Blank message, chat busy or no analysis: nothing changes and no request is made. Otherwise the untrimmed message is appended as a user turn, the input is cleared and the chat is marked busy. The request carries the message and the analysis' document id. |
| `Session.App.HandleSendComplete` | frontend/src/App.js:106-116 | The history becomes the start's snapshot plus one assistant turn: the answer, or "Error: " and the message. The chat is no longer busy and nothing else changes. |
| `Session.ModeOf` | frontend/src/App.js:175-233 | Maps the flat state to the states Idle, Ready, Analyzing, Analyzed and Awaiting. The upload view shows iff Idle/Ready, the loading panel iff Analyzing, the analysis view iff Analyzed/Awaiting. Exactly one view is shown. |
| `SessionRuns.NextCoherent` | frontend/src/App.js:25-117 | Every event the page offers keeps the invariant. The flags match the requests in flight. A history exists only beside an analysis, and it alternates user and assistant turns. A question in flight is the last user turn, sent with the held analysis' id. |
| `SessionRuns.SendKeepsCoherent` | frontend/src/App.js:88-95 | A send the guard accepts keeps the invariant. It appends an unanswered user turn and records the request for the held analysis. |
| `SessionRuns.ReplyKeepsCoherent` | frontend/src/App.js:110-116 | A reply to the question in flight keeps the invariant. It answers the last user turn and clears the chat flag. |
| `SessionRuns.ExchangeStep` | frontend/src/App.js:88-116 | From a settled analysis view, typing a non-blank question and receiving its response appends the question and the answer or error. The view returns to settled with the analysis unchanged. |
| `SessionRuns.TranscriptCons` | frontend/src/App.js:91-113 | The first exchange followed by a transcript of the rest is a transcript of all exchanges, in order. |
| `SessionRuns.RunCoherent` | frontend/src/App.js:175-293 | The invariant holds after any run of events, each offered by the view rendered at the time. |
| `SessionRuns.Reachable` | frontend/src/App.js:6-13 | Every session reachable from the initial state satisfies the invariant. |
| `SessionRuns.ChatReplyIsCurrent` | frontend/src/App.js:110-116 | In a coherent session a reply appends exactly one assistant turn to the current history and leaves the analysis alone. |
| `SessionRuns.SingleFlight` | frontend/src/App.js:88-89 | While a request is in flight the page offers no file choice and no analyze. A second send is refused by the guard, so at most one question is outstanding. |
| `SessionRuns.StaleReplyWithoutViewGating` | frontend/src/App.js:91-113 | Without the view gating, a file chosen mid-question is followed by the reply restoring the old history plus the answer, beside no analysis. |
| `SessionRuns.AnalyzeRound` | frontend/src/App.js:56-85 | Analyze then its response: on success the session is Analyzed with the payload and an empty history. On failure it is Ready with the file kept, no analysis and the error shown. |
| `SessionRuns.ConversationGrows` | frontend/src/App.js:88-116 | N exchanges with non-blank questions add exactly 2N turns after the old history, in call order: question as typed, then answer or error. The analysis is unchanged. |
| `Text.Strip` | frontend/src/App.js:89 | A trimmed string is empty exactly when every character is whitespace; otherwise it starts and ends with a non-space. |
| `Text.TrimStart` | frontend/src/App.js:89 | The result is the suffix that starts at the first non-space; everything dropped is whitespace. |
| `Text.TrimEnd` | frontend/src/App.js:89 | The result is the prefix that ends at the last non-space; everything dropped is whitespace. |
| `Agents.SplitExt` | backend/Agents.py:74 | root + ext is the name. The extension is non-empty iff the name has one in the POSIX rule: the last dot, no dot or '/' after it, and a non-dot in the file name before it. |
| `Agents.ReaderFor` | backend/Agents.py:73-83 | The chosen reader is the one whose extension equals the lower-cased extension. If none matches, it is a ValueError "Unsupported file type: " followed by the extension as written. |
| `Agents.GetTextFromFile` | backend/Agents.py:73-83 | For an unsupported extension the ValueError is the result and no reader runs; otherwise the chosen reader's outcome. |
| `Agents.ReaderForIgnoresCase` | backend/Agents.py:75-79 | Two names whose extensions agree up to case get the same reader, or are both rejected. |
| `Agents.UpperCaseExtension` | backend/Agents.py:75 | "Lease.PDF" gets the PDF reader. |
| `Agents.DotFileHasNoExtension` | backend/Agents.py:74-83 | ".txt" has no extension and is rejected as "Unsupported file type: ". |
| `Agents.LastSuffixCounts` | backend/Agents.py:74-83 | "notes.txt.bak" is rejected with the extension ".bak". |
| `Agents.ExtractPdfText` | backend/Agents.py:61-67 | The loop appends each page's text, or nothing for a page without text, in page order. |
| `Agents.JoinPagesAppend` | backend/Agents.py:61-67 | The text of two runs of pages is the concatenation of their texts. |
| `Agents.Chunks` | backend/Agents.py:135 | The number of chunks is ceil(len / 800). |
| `Agents.ChunkAt` | backend/Agents.py:135 | Chunk i is text[800*i : 800*i+1000], with 800*i inside the text. |
| `Agents.ChunkLengths` | backend/Agents.py:135 | Every chunk is non-empty and at most 1000 long. |
| `Agents.ChunksOverlap` | backend/Agents.py:135 | Every chunk but the last is longer than 800. Its part past 800, at most 200 characters, is the start of the next chunk. |
| `Agents.ReassembleChunks` | backend/Agents.py:135 | The first 800 characters of every chunk but the last, then the last chunk whole, give back the text. |
| `Agents.ChunkIds` | backend/Agents.py:137 | One id per chunk. |
| `Agents.ChunkIdsAreIndices` | backend/Agents.py:137 | Id i reads back as the number i, so the ids are "0".."n-1" and pairwise distinct. |
| `Text.NatToString` | backend/Agents.py:137 | str(i) is a non-empty string of decimal digits without a leading zero. |
| `Text.ParseNatToString` | backend/Agents.py:137 | Reading the digits of str(n) gives n back. |
| `Text.NatToStringInjective` | backend/Agents.py:137 | Distinct numbers have distinct renderings. |
| `Agents.AnalysisExcerpt` | backend/Agents.py:144 | The prompt gets a prefix of the text of at most 20000 characters: the whole text when shorter, exactly 20000 otherwise. |
| `Agents.ExtractedText` | backend/Agents.py:128-130 | Text is accepted iff extraction succeeded and it is not all Python whitespace. An extraction error passes through; empty or blank text is a ValueError with the fixed message. |
| `Agents.AnalysisOutcome` | backend/Agents.py:144-149 | Success iff the model replied with a JSON object, which gets the document id. Invalid JSON is a ValueError with the decoder's message. A non-object is a non-ValueError. A failed model call passes through. |
| `Agents.ProcessOutcome` | backend/Agents.py:119-153 | An extraction or blank-text error is the result. Otherwise the result is the analysis outcome of the model's reply to the first 20000 characters of the text (`AnalysisExcerpt`). A successful analysis carries the fresh document id. |
| `Agents.DocumentProcessor.constructor` | backend/Agents.py:112-117 | The store and the collections start empty. |
| `Agents.DocumentProcessor.ProcessDocument` | backend/Agents.py:119-153 | When text extraction fails, nothing is stored. Otherwise the fresh id is added to the store, and its collection holds the chunks and ids "0".."n-1". Other entries stay unchanged, and this happens even when the analysis then fails. A successful result carries the id, which is in the store. |
| `Agents.DocumentProcessor.ChatWithDocument` | backend/Agents.py:155-173 | An id not in the store gives the ValueError "Document not found or session expired" whatever the retrieval would do. Otherwise the answer comes from that document's own collection. |
| `Server.AnalyzeResponse` | backend/main.py:21-42 | No 'document' part: 400 "No document file provided". Empty filename: 400 "No selected file". Otherwise 200 with the analysis, 400 with a ValueError's message, or 500 with the generic message. |
| `Server.ChatResponse` | backend/main.py:44-65 | A missing or empty question or document_id gives 400. Otherwise 200 with {"answer"}, 404 with a ValueError's message, or 500 with the generic message. |
| `Server.StatusCodes` | backend/main.py:21-65 | /analyze answers 200, 400 or 500; /chat answers 200, 400, 404 or 500. |
| `Server.AnalyzeRoute` | backend/main.py:21-42 | A rejected request leaves the processor untouched (it is not called) and gets 400 "No document file provided" or "No selected file". An accepted one gets the response for the processor's outcome. It leaves the store and collections unchanged when extraction fails; otherwise it adds exactly the fresh id's entry and its chunk collection. A 200 carries an id that is in the store. |
| `Server.ChatRoute` | backend/main.py:44-65 | Missing fields give 400. An id the processor never stored gives 404 "Document not found or session expired". Otherwise the answer comes from that document's collection. |

## Left out

- Rendering, styling, `copyToClipboard`, `renderAnalysisSection`, the copied-state timers and the scroll effect: presentation and DOM side effects.
- `fetch`, `FormData`, JSON encoding and decoding, and `frontend/src/api.js` (App.js does not use it): a request's result enters as the completion step's parameter.
- React's scheduling: each handler step is atomic, and only the split at `await` is modelled. Two clicks handled before React re-renders (both closures seeing `isChatLoading` false) are not modelled.
- The readers' internals: PyPDF2, python-docx, opening and UTF-8 decoding a `.txt` file. `read` is a parameter giving each reader's text or exception. The page loop of `extract_text_from_pdf` is modelled on its own (`ExtractPdfText` over a sequence of page texts); `read(PdfReader)` is not tied to it, since opening and parsing the PDF are not modelled. The paragraph join of `extract_text_from_docx` is not modelled.
- `file.save` and the upload folder: file-system I/O.
- Agents.DocumentProcessor.ProcessDocument: does not model a failure of the embedding step or of the vector database between creating the collection and writing the store entry. The model's invariant assumes every collection has its entry.
- Embeddings, the vector database query (top 5 chunks) and the chat prompt: `retrieve` is a parameter given the document's collection and the question.
- The language model calls and the prompt templates: `llm` is a parameter that receives the text excerpt; the template around it is not modelled.
- Fields of the model's JSON other than summary, key points and risks, and missing fields.
- `uuid.uuid4()`: the fresh id is a parameter required to be absent from the store.
- Flask setup, CORS, the `/` route, `os.makedirs`, environment and API-key loading, and logging.
- `/chat` bodies that are not JSON objects, and fields that are not strings: `question` and `document_id` are modelled as absent or strings.
- Windows path separators in `os.path.splitext`, and non-ASCII case mapping in `str.lower` (no non-ASCII character lower-cases to a letter of ".pdf", ".docx" or ".txt").
- A chat response without an `answer` field (the history would then hold `undefined`).
