/**
 * The document processor of the back end (backend/Agents.py): choosing a text
 * reader by file extension, rejecting documents without text, cutting the text
 * into overlapping chunks with ids "0".."n-1", recording each processed
 * document in the processor's store, and refusing chat about unknown ids.
 * Text extraction, embeddings, the vector database and the language model are
 * opaque collaborators and appear as parameters.
 */
module Agents {
  import opened Wrappers
  import opened Text

  /** The two kinds of exception the HTTP layer tells apart: ValueError (and its
      subclasses) and everything else. */
  datatype Error = ValueError(message: string) | OtherError(message: string)

  /** The three text readers get_text_from_file can dispatch to. */
  datatype Reader = PdfReader | DocxReader | TxtReader

  const ChunkSize: nat := 1000
  const ChunkStride: nat := 800
  const ExcerptLimit: nat := 20000
  const EmptyTextMessage := "Could not extract text from the document."
  const NotFoundMessage := "Document not found or session expired"
  const UnsupportedPrefix := "Unsupported file type: "

  function Min(a: int, b: int): int {
    if a <= b then a else b
  }

  // ---------------------------------------------------------------------------
  // Dispatch on the file extension
  // ---------------------------------------------------------------------------

  /** Index of the last occurrence of c in s, or -1 (Python's str.rfind). */
  function LastIndex(s: string, c: char): (k: int)
    ensures -1 <= k < |s|
    ensures k >= 0 ==> s[k] == c
    ensures forall j :: k < j < |s| ==> s[j] != c
  {
    if s == [] then -1
    else if s[|s| - 1] == c then |s| - 1
    else LastIndex(s[..|s| - 1], c)
  }

  /** Position k of p starts an extension in the sense of os.path.splitext on POSIX:
      it is the last dot, no '/' follows it, and the file name part before it is
      not made of dots alone. */
  ghost predicate ExtensionAt(p: string, k: int) {
    && 0 <= k < |p| && p[k] == '.'
    && (forall j :: k < j < |p| ==> p[j] != '.' && p[j] != '/')
    && (exists j :: 0 <= j < k && p[j] != '.' && p[j] != '/' && forall m :: j < m < k ==> p[m] != '/')
  }

  /** os.path.splitext for POSIX paths: (root, ext) with root + ext == p. */
  function SplitExt(p: string): (r: (string, string))
    ensures r.0 + r.1 == p
    ensures r.1 != [] <==> exists k :: ExtensionAt(p, k)
    ensures r.1 != [] ==> ExtensionAt(p, |r.0|)
  {
    var sep := LastIndex(p, '/');
    var dot := LastIndex(p, '.');
    if dot > sep && exists j :: sep < j < dot && p[j] != '.' then
      assert ExtensionAt(p, dot) by {
        var j :| sep < j < dot && p[j] != '.';
        assert p[j] != '/';
      }
      (p[..dot], p[dot..])
    else
      assert forall k :: !ExtensionAt(p, k) by {
        forall k | ExtensionAt(p, k) ensures false {
        }
      }
      (p, [])
  }

  function Extension(filename: string): string {
    SplitExt(filename).1
  }

  /** The lower-case extension each reader is chosen for. */
  function ReaderExtension(reader: Reader): string {
    match reader
    case PdfReader => ".pdf"
    case DocxReader => ".docx"
    case TxtReader => ".txt"
  }

  /** The dispatch of get_text_from_file: the extension, lower-cased, picks the reader;
      any other extension is a ValueError that names the extension as written. */
  function ReaderFor(filename: string): (r: Result<Reader, Error>)
    ensures r.Success? ==> ReaderExtension(r.value) == Lower(Extension(filename))
    ensures r.Failure? ==> forall reader :: ReaderExtension(reader) != Lower(Extension(filename))
    ensures r.Failure? ==> r.error == ValueError(UnsupportedPrefix + Extension(filename))
  {
    var ext := Extension(filename);
    if Lower(ext) == ".pdf" then Success(PdfReader)
    else if Lower(ext) == ".docx" then Success(DocxReader)
    else if Lower(ext) == ".txt" then Success(TxtReader)
    else Failure(ValueError(UnsupportedPrefix + ext))
  }

  /** get_text_from_file: the chosen reader's outcome; for an unsupported extension
      no reader runs and the ValueError is the result. */
  function GetTextFromFile(filename: string, read: Reader -> Result<string, Error>): (r: Result<string, Error>)
    ensures ReaderFor(filename).Failure? ==> r == Failure(ValueError(UnsupportedPrefix + Extension(filename)))
    ensures ReaderFor(filename).Success? ==> r == read(ReaderFor(filename).value)
  {
    match ReaderFor(filename)
    case Failure(e) => Failure(e)
    case Success(reader) => read(reader)
  }

  /** Only the lower-cased extension matters: two names whose extensions agree up to
      case get the same reader. */
  lemma ReaderForIgnoresCase(a: string, b: string)
    requires Lower(Extension(a)) == Lower(Extension(b))
    ensures ReaderFor(a).Success? == ReaderFor(b).Success?
    ensures ReaderFor(a).Success? ==> ReaderFor(a).value == ReaderFor(b).value
  {
  }

  /** Upper-case extensions are accepted. */
  lemma UpperCaseExtension()
    ensures ReaderFor("Lease.PDF") == Success(PdfReader)
  {
    var lease := "Lease.PDF";
    assert lease[4] != '.' && lease[4] != '/';
    assert ExtensionAt(lease, 5);
    assert Extension(lease) == ".PDF";
    assert Lower(".PDF") == ".pdf";
  }

  /** A name that is a dot and an extension only has no extension at all. */
  lemma DotFileHasNoExtension()
    ensures ReaderFor(".txt") == Failure(ValueError(UnsupportedPrefix))
  {
    assert Extension(".txt") == "";
    assert Lower("") == "";
    assert UnsupportedPrefix + "" == UnsupportedPrefix;
  }

  /** Only the last suffix counts. */
  lemma LastSuffixCounts()
    ensures ReaderFor("notes.txt.bak") == Failure(ValueError(UnsupportedPrefix + ".bak"))
  {
    var notes := "notes.txt.bak";
    assert notes[8] != '.' && notes[8] != '/';
    assert ExtensionAt(notes, 9);
    assert Extension(notes) == ".bak";
    assert Lower(".bak") == ".bak";
  }

  // ---------------------------------------------------------------------------
  // PDF text accumulation
  // ---------------------------------------------------------------------------

  /** `page.extract_text() or ""`: a page without text contributes nothing. */
  function PageText(page: Option<string>): string {
    if page.Some? then page.value else ""
  }

  /** The texts of the pages, in page order. */
  function JoinPages(pages: seq<Option<string>>): string {
    if pages == [] then "" else JoinPages(pages[..|pages| - 1]) + PageText(pages[|pages| - 1])
  }

  /** Joining the pages of two parts of a document joins their texts. */
  lemma {:induction false} JoinPagesAppend(a: seq<Option<string>>, b: seq<Option<string>>)
    ensures JoinPages(a + b) == JoinPages(a) + JoinPages(b)
    decreases |b|
  {
    if b == [] {
      assert a + b == a;
    } else {
      assert (a + b)[..|a + b| - 1] == a + b[..|b| - 1];
      assert (a + b)[|a + b| - 1] == b[|b| - 1];
      JoinPagesAppend(a, b[..|b| - 1]);
    }
  }

  /** extract_text_from_pdf: the loop that appends each page's text. */
  method ExtractPdfText(pages: seq<Option<string>>) returns (text: string)
    ensures text == JoinPages(pages)
  {
    text := "";
    for i := 0 to |pages|
      invariant text == JoinPages(pages[..i])
    {
      assert pages[..i + 1][..i] == pages[..i];
      text := text + PageText(pages[i]);
    }
    assert pages[..|pages|] == pages;
  }

  // ---------------------------------------------------------------------------
  // Chunking
  // ---------------------------------------------------------------------------

  /** The chunks of process_document: windows of ChunkSize characters starting every
      ChunkStride characters, the last ones cut short by the end of the text. */
  function Chunks(text: string): (cs: seq<string>)
    ensures |cs| == (|text| + ChunkStride - 1) / ChunkStride
    decreases |text|
  {
    if text == [] then []
    else [text[..Min(ChunkSize, |text|)]] + Chunks(text[Min(ChunkStride, |text|)..])
  }

  /** Chunk i is text[800 * i : 800 * i + 1000], the slice of the source's list comprehension. */
  lemma {:induction false} ChunkAt(text: string, i: nat)
    requires i < |Chunks(text)|
    ensures ChunkStride * i < |text|
    ensures Chunks(text)[i] == text[ChunkStride * i .. Min(ChunkStride * i + ChunkSize, |text|)]
    decreases |text|
  {
    if i > 0 {
      var rest := text[Min(ChunkStride, |text|)..];
      assert Chunks(text)[i] == Chunks(rest)[i - 1];
      ChunkAt(rest, i - 1);
      assert rest == text[ChunkStride..];
    }
  }

  /** Every chunk is non-empty and at most ChunkSize long. */
  lemma ChunkLengths(text: string)
    ensures forall i :: 0 <= i < |Chunks(text)| ==> 0 < |Chunks(text)[i]| <= ChunkSize
  {
    forall i | 0 <= i < |Chunks(text)| ensures 0 < |Chunks(text)[i]| <= ChunkSize {
      ChunkAt(text, i);
    }
  }

  /** Consecutive chunks overlap: the part of chunk i past its first ChunkStride
      characters, at most ChunkSize - ChunkStride of them, begins chunk i + 1. */
  lemma ChunksOverlap(text: string, i: nat)
    requires i + 1 < |Chunks(text)|
    ensures ChunkStride < |Chunks(text)[i]|
    ensures |Chunks(text)[i]| - ChunkStride <= ChunkSize - ChunkStride
    ensures |Chunks(text)[i]| - ChunkStride <= |Chunks(text)[i + 1]|
    ensures Chunks(text)[i][ChunkStride..] == Chunks(text)[i + 1][..|Chunks(text)[i]| - ChunkStride]
  {
    ChunkAt(text, i);
    ChunkAt(text, i + 1);
    var a := ChunkStride * i;
    var e := Min(a + ChunkSize, |text|);
    assert Chunks(text)[i][ChunkStride..] == text[a + ChunkStride .. e];
    assert Chunks(text)[i + 1][..|Chunks(text)[i]| - ChunkStride] == text[a + ChunkStride .. e];
  }

  /** The first ChunkStride characters of every chunk but the last, then the last chunk whole. */
  function Reassemble(cs: seq<string>): string {
    if cs == [] then ""
    else if |cs| == 1 then cs[0]
    else cs[0][..Min(ChunkStride, |cs[0]|)] + Reassemble(cs[1..])
  }

  /** Reassembling the chunks gives back the text: no character is lost or repeated. */
  lemma {:induction false} ReassembleChunks(text: string)
    ensures Reassemble(Chunks(text)) == text
    decreases |text|
  {
    if |text| > ChunkStride {
      var rest := text[ChunkStride..];
      assert Chunks(text) == [text[..Min(ChunkSize, |text|)]] + Chunks(rest);
      assert Chunks(text)[1..] == Chunks(rest);
      ReassembleChunks(rest);
      assert text[..ChunkStride] + rest == text;
    } else if text != [] {
      assert text[Min(ChunkStride, |text|)..] == [];
      assert text[..Min(ChunkSize, |text|)] == text;
      assert Chunks(text) == [text] + Chunks([]);
    }
  }

  /** chunk_ids: str(i) for every chunk index i. */
  function ChunkIds(n: nat): (ids: seq<string>)
    ensures |ids| == n
  {
    seq(n, i requires 0 <= i => NatToString(i))
  }

  /** The ids are exactly "0".."n-1": id i reads back as the number i, so no two ids are equal. */
  lemma ChunkIdsAreIndices(n: nat)
    ensures forall i :: 0 <= i < n ==> ParseDecimal(ChunkIds(n)[i]) == i
    ensures forall i, j :: 0 <= i < j < n ==> ChunkIds(n)[i] != ChunkIds(n)[j]
  {
    forall i | 0 <= i < n ensures ParseDecimal(ChunkIds(n)[i]) == i {
      ParseNatToString(i);
    }
  }

  /** The text handed to the analysis prompt: at most its first ExcerptLimit characters. */
  function AnalysisExcerpt(text: string): (r: string)
    ensures |r| <= ExcerptLimit && r <= text
    ensures |text| <= ExcerptLimit ==> r == text
    ensures |text| > ExcerptLimit ==> |r| == ExcerptLimit
  {
    text[..Min(|text|, ExcerptLimit)]
  }

  // ---------------------------------------------------------------------------
  // The document processor
  // ---------------------------------------------------------------------------

  /** The record kept per document: the name of its vector collection. */
  datatype StoreEntry = StoreEntry(collectionName: string)

  /** What is added to a document's vector collection: chunk ids and chunk texts
      (the embeddings are left out). */
  datatype Collection = Collection(ids: seq<string>, documents: seq<string>)

  /** The fields the language model is asked for. */
  datatype AnalysisFields = AnalysisFields(summary: string, keyPoints: seq<string>, risks: seq<string>)

  /** The analysis returned to the client: the model's fields plus the document id. */
  datatype AnalysisData = AnalysisData(documentId: string, fields: AnalysisFields)

  /** What json.loads makes of the model's reply. */
  datatype ParsedReply = JsonObject(fields: AnalysisFields) | JsonNotObject | JsonInvalid(message: string)

  /** The outcome of the analysis call to the language model. */
  datatype LlmReply = LlmFailed(error: Error) | LlmText(parsed: ParsedReply)

  /** The extracted text, or the error that stops processing: an extraction error,
      or a ValueError when the text is empty or whitespace only. */
  function ExtractedText(filename: string, read: Reader -> Result<string, Error>): (r: Result<string, Error>)
    ensures r.Success? <==> GetTextFromFile(filename, read).Success? && !Blank(GetTextFromFile(filename, read).value, IsPyWhitespace)
    ensures r.Success? ==> r.value == GetTextFromFile(filename, read).value
    ensures GetTextFromFile(filename, read).Failure? ==> r == GetTextFromFile(filename, read)
    ensures GetTextFromFile(filename, read).Success? && r.Failure? ==> r.error == ValueError(EmptyTextMessage)
  {
    match GetTextFromFile(filename, read)
    case Failure(e) => Failure(e)
    case Success(docText) =>
      if docText == "" || PyStrip(docText) == "" then Failure(ValueError(EmptyTextMessage)) else Success(docText)
  }

  /** From the model's reply to the analysis: a JSON object gets the document id added;
      a decoding error is a ValueError (json.JSONDecodeError is one); a JSON value that is
      not an object fails on the item assignment with a TypeError; an exception of the
      model call itself passes through unchanged. */
  function AnalysisOutcome(documentId: string, reply: LlmReply): (r: Result<AnalysisData, Error>)
    ensures reply.LlmFailed? ==> r == Failure(reply.error)
    ensures r.Success? <==> reply.LlmText? && reply.parsed.JsonObject?
    ensures r.Success? ==> r.value == AnalysisData(documentId, reply.parsed.fields)
    ensures reply.LlmText? && reply.parsed.JsonInvalid? ==> r == Failure(ValueError(reply.parsed.message))
    ensures reply.LlmText? && reply.parsed.JsonNotObject? ==> r.Failure? && r.error.OtherError?
  {
    match reply
    case LlmFailed(e) => Failure(e)
    case LlmText(JsonObject(fields)) => Success(AnalysisData(documentId, fields))
    // Python's TypeError text depends on the value's type; it is a placeholder here,
    // since /analyze answers any such error with its generic 500 message
    case LlmText(JsonNotObject) => Failure(OtherError("TypeError"))
    case LlmText(JsonInvalid(message)) => Failure(ValueError(message))
  }

  /** The result of process_document for a document whose fresh id is documentId. */
  function ProcessOutcome(filename: string, documentId: string, read: Reader -> Result<string, Error>,
                          llm: string -> LlmReply): (r: Result<AnalysisData, Error>)
    ensures ExtractedText(filename, read).Failure? ==> r == Failure(ExtractedText(filename, read).error)
    ensures ExtractedText(filename, read).Success? ==>
      r == AnalysisOutcome(documentId, llm(AnalysisExcerpt(ExtractedText(filename, read).value)))
    ensures r.Success? ==> r.value.documentId == documentId
  {
    match ExtractedText(filename, read)
    case Failure(e) => Failure(e)
    case Success(docText) => AnalysisOutcome(documentId, llm(AnalysisExcerpt(docText)))
  }

  class DocumentProcessor {
    const uploadFolder: string
    var documentStore: map<string, StoreEntry>
    var collections: map<string, Collection>

    /** Every stored document has a collection of its own name, and every collection a store entry. */
    ghost predicate Valid()
      reads this
    {
      && documentStore.Keys == collections.Keys
      && forall id :: id in documentStore ==> documentStore[id].collectionName == id
    }

    constructor (uploadFolder: string)
      ensures Valid()
      ensures this.uploadFolder == uploadFolder
      ensures documentStore == map[] && collections == map[]
    {
      this.uploadFolder := uploadFolder;
      documentStore := map[];
      collections := map[];
    }

    /** process_document for an uploaded file named filename. freshId stands for the
        uuid4 the source draws; read for the readers; llm for the analysis call. */
    method ProcessDocument(filename: string, freshId: string, read: Reader -> Result<string, Error>,
                           llm: string -> LlmReply) returns (r: Result<AnalysisData, Error>)
      requires Valid()
      requires freshId !in documentStore
      modifies this
      ensures Valid()
      ensures r == ProcessOutcome(filename, freshId, read, llm)
      ensures ExtractedText(filename, read).Failure? ==>
        documentStore == old(documentStore) && collections == old(collections)
      ensures ExtractedText(filename, read).Success? ==>
        var docText := ExtractedText(filename, read).value;
        && documentStore == old(documentStore)[freshId := StoreEntry(freshId)]
        && collections == old(collections)[freshId := Collection(ChunkIds(|Chunks(docText)|), Chunks(docText))]
      ensures r.Success? ==> r.value.documentId == freshId && r.value.documentId in documentStore
    {
      // the text, or the reader's error, or the ValueError for a blank text
      var extracted := ExtractedText(filename, read);
      if extracted.Failure? {
        return Failure(extracted.error);
      }
      var docText := extracted.value;
      var documentId := freshId;
      var chunks := Chunks(docText);
      var chunkIds := ChunkIds(|chunks|);
      collections := collections[documentId := Collection(chunkIds, chunks)];
      documentStore := documentStore[documentId := StoreEntry(documentId)];
      var reply := llm(AnalysisExcerpt(docText));
      r := AnalysisOutcome(documentId, reply);
    }

    /** chat_with_document: an id that is not in the store is refused with a ValueError
        before any collection is consulted; otherwise the answer comes from that
        document's own collection (retrieve stands for the query and the model call). */
    function ChatWithDocument(question: string, documentId: string,
                              retrieve: (Collection, string) -> Result<string, Error>): (r: Result<string, Error>)
      reads this
      requires Valid()
      ensures documentId !in documentStore ==> r == Failure(ValueError(NotFoundMessage))
      ensures documentId in documentStore ==> r == retrieve(collections[documentId], question)
    {
      if documentId !in documentStore then Failure(ValueError(NotFoundMessage))
      else retrieve(collections[documentStore[documentId].collectionName], question)
    }
  }
}
