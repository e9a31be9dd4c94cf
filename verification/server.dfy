/**
 * The HTTP routes of the back end (backend/main.py): request validation and the
 * mapping of the processor's outcome, or its exception, to a JSON body and a
 * status code.
 */
module Server {
  import opened Wrappers
  import opened Agents

  const NoDocumentMessage := "No document file provided"
  const NoSelectedFileMessage := "No selected file"
  const AnalyzeInternalMessage := "An internal server error occurred."
  const MissingChatFieldsMessage := "Missing 'question' or 'document_id'"
  const ChatInternalMessage := "An internal server error occurred during chat processing."

  /** The JSON bodies the two routes send. */
  datatype Body =
    | ErrorBody(error: string)
    | AnalysisBody(analysis: Agents.AnalysisData)
    | AnswerBody(answer: string)

  datatype Response = Response(body: Body, status: int)

  /** A part of a multipart upload. */
  datatype FilePart = FilePart(filename: string)

  /** POST /analyze: the uploaded file parts by form field name. */
  datatype AnalyzeRequest = AnalyzeRequest(files: map<string, FilePart>)

  /** POST /chat: the two fields of the JSON body, absent or given as strings. */
  datatype ChatRequest = ChatRequest(question: Option<string>, documentId: Option<string>)

  /** /analyze hands the file to the processor only when a 'document' part with a non-empty name came. */
  predicate AnalyzeAccepted(req: AnalyzeRequest) {
    "document" in req.files && req.files["document"].filename != ""
  }

  /** analyze_document, given what process_document returned or raised when it was called. */
  function AnalyzeResponse(req: AnalyzeRequest, outcome: Result<Agents.AnalysisData, Agents.Error>): (r: Response)
    ensures "document" !in req.files ==> r == Response(ErrorBody(NoDocumentMessage), 400)
    ensures "document" in req.files && req.files["document"].filename == "" ==>
      r == Response(ErrorBody(NoSelectedFileMessage), 400)
    ensures r.status == 200 <==> AnalyzeAccepted(req) && outcome.Success?
    ensures r.status == 200 ==> r.body == AnalysisBody(outcome.value)
    ensures AnalyzeAccepted(req) && outcome.Failure? && outcome.error.ValueError? ==>
      r == Response(ErrorBody(outcome.error.message), 400)
    ensures r.status == 500 <==> AnalyzeAccepted(req) && outcome.Failure? && outcome.error.OtherError?
    ensures r.status == 500 ==> r.body == ErrorBody(AnalyzeInternalMessage)
  {
    if "document" !in req.files then
      Response(ErrorBody(NoDocumentMessage), 400)
    else if req.files["document"].filename == "" then
      Response(ErrorBody(NoSelectedFileMessage), 400)
    else
      match outcome
      case Success(analysisData) => Response(AnalysisBody(analysisData), 200)
      case Failure(ValueError(message)) => Response(ErrorBody(message), 400)
      case Failure(OtherError(_)) => Response(ErrorBody(AnalyzeInternalMessage), 500)
  }

  /** Python truthiness of an optional string field: present and non-empty. */
  predicate Truthy(field: Option<string>) {
    field.Some? && field.value != ""
  }

  /** /chat consults the processor only when both fields are truthy. */
  predicate ChatAccepted(req: ChatRequest) {
    Truthy(req.question) && Truthy(req.documentId)
  }

  /** chat_with_document (the route), given what the processor returned or raised when it was called. */
  function ChatResponse(req: ChatRequest, outcome: Result<string, Agents.Error>): (r: Response)
    ensures !ChatAccepted(req) ==> r == Response(ErrorBody(MissingChatFieldsMessage), 400)
    ensures r.status == 200 <==> ChatAccepted(req) && outcome.Success?
    ensures r.status == 200 ==> r.body == AnswerBody(outcome.value)
    ensures r.status == 404 <==> ChatAccepted(req) && outcome.Failure? && outcome.error.ValueError?
    ensures r.status == 404 ==> r.body == ErrorBody(outcome.error.message)
    ensures r.status == 500 <==> ChatAccepted(req) && outcome.Failure? && outcome.error.OtherError?
    ensures r.status == 500 ==> r.body == ErrorBody(ChatInternalMessage)
  {
    if !(Truthy(req.question) && Truthy(req.documentId)) then
      Response(ErrorBody(MissingChatFieldsMessage), 400)
    else
      match outcome
      case Success(answer) => Response(AnswerBody(answer), 200)
      case Failure(ValueError(message)) => Response(ErrorBody(message), 404)
      case Failure(OtherError(_)) => Response(ErrorBody(ChatInternalMessage), 500)
  }

  /** Every response either route sends has one of the statuses 200, 400, 404, 500, and
      only /chat ever answers 404. */
  lemma StatusCodes(areq: AnalyzeRequest, aout: Result<Agents.AnalysisData, Agents.Error>,
                    creq: ChatRequest, cout: Result<string, Agents.Error>)
    ensures AnalyzeResponse(areq, aout).status in {200, 400, 500}
    ensures ChatResponse(creq, cout).status in {200, 400, 404, 500}
  {
  }

  /** POST /analyze against the processor instance: the processor runs only for an
      accepted request, which stores the document unless its text could not be
      extracted; a rejected request leaves the processor untouched. */
  method AnalyzeRoute(processor: Agents.DocumentProcessor, req: AnalyzeRequest, freshId: string,
                      read: Agents.Reader -> Result<string, Agents.Error>,
                      llm: string -> Agents.LlmReply) returns (resp: Response)
    requires processor.Valid()
    requires freshId !in processor.documentStore
    modifies processor
    ensures processor.Valid()
    ensures !AnalyzeAccepted(req) ==> unchanged(processor)
    ensures "document" !in req.files ==> resp == Response(ErrorBody(NoDocumentMessage), 400)
    ensures "document" in req.files && req.files["document"].filename == "" ==>
      resp == Response(ErrorBody(NoSelectedFileMessage), 400)
    ensures AnalyzeAccepted(req) ==>
      resp == AnalyzeResponse(req, Agents.ProcessOutcome(req.files["document"].filename, freshId, read, llm))
    ensures AnalyzeAccepted(req) && ExtractedText(req.files["document"].filename, read).Failure? ==>
      processor.documentStore == old(processor.documentStore) && processor.collections == old(processor.collections)
    ensures AnalyzeAccepted(req) && ExtractedText(req.files["document"].filename, read).Success? ==>
      var docText := ExtractedText(req.files["document"].filename, read).value;
      && processor.documentStore == old(processor.documentStore)[freshId := StoreEntry(freshId)]
      && processor.collections ==
           old(processor.collections)[freshId := Collection(ChunkIds(|Chunks(docText)|), Chunks(docText))]
    ensures resp.status == 200 ==>
      resp.body.AnalysisBody? && resp.body.analysis.documentId in processor.documentStore
  {
    if "document" !in req.files {
      return Response(ErrorBody(NoDocumentMessage), 400);
    }
    var file := req.files["document"];
    if file.filename == "" {
      return Response(ErrorBody(NoSelectedFileMessage), 400);
    }
    var outcome := processor.ProcessDocument(file.filename, freshId, read, llm);
    resp := AnalyzeResponse(req, outcome);
  }

  /** POST /chat against the processor instance: an id the processor never stored is
      answered with 404 and the not-found message, and the retrieval is not consulted. */
  function ChatRoute(processor: Agents.DocumentProcessor, req: ChatRequest,
                     retrieve: (Agents.Collection, string) -> Result<string, Agents.Error>): (r: Response)
    reads processor
    requires processor.Valid()
    ensures !ChatAccepted(req) ==> r == Response(ErrorBody(MissingChatFieldsMessage), 400)
    ensures ChatAccepted(req) && req.documentId.value !in processor.documentStore ==>
      r == Response(ErrorBody(Agents.NotFoundMessage), 404)
    ensures ChatAccepted(req) && req.documentId.value in processor.documentStore ==>
      r == ChatResponse(req, retrieve(processor.collections[req.documentId.value], req.question.value))
  {
    if !ChatAccepted(req) then Response(ErrorBody(MissingChatFieldsMessage), 400)
    else ChatResponse(req, processor.ChatWithDocument(req.question.value, req.documentId.value, retrieve))
  }
}
