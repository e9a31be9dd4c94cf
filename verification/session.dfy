/**
 * The document session of the front end (frontend/src/App.js): the component
 * state, and the handlers that pick a file, run the analysis and hold the chat.
 * Each asynchronous handler is split at its await into a start step and a
 * completion step; the completion step receives what the request produced.
 */
module Session {
  import opened Wrappers
  import opened Text

  const NoFileMessage := "Please upload a document first."
  const AnalyzeFailedMessage := "Failed to analyze the document. Please try again."
  const ChatFailedMessage := "Failed to get chat response. Please try again."
  const ErrorPrefix := "Error: "

  datatype Role = User | Assistant

  datatype ChatTurn = ChatTurn(role: Role, content: string)

  /** The analysis the server returns for a document. */
  datatype Analysis = Analysis(documentId: string, summary: string, keyPoints: seq<string>, risks: seq<string>)

  /** A file the user picked or dropped. */
  datatype SelectedFile = SelectedFile(name: string, bytes: seq<bv8>)

  /** What an awaited request produced: a response with `ok` set and its decoded
      body, a response that was not ok, or an exception with its message (a network
      failure or a body that did not decode). */
  datatype Fetched<T> = Ok(data: T) | NotOk | Threw(message: string)

  /** The JSON body of a chat request. */
  datatype ChatRequest = ChatRequest(question: string, documentId: string)

  /** What the chat handler holds across its await: the history it wrote at the
      start (newChatHistory) and the request it sent. */
  datatype PendingChat = PendingChat(snapshot: seq<ChatTurn>, request: ChatRequest)

  /** All state variables of the component that the handlers touch. */
  datatype State = State(
    file: Option<SelectedFile>,
    fileName: string,
    analysis: Option<Analysis>,
    isLoading: bool,
    error: string,
    chatHistory: seq<ChatTurn>,
    userMessage: string,
    isChatLoading: bool)

  const Initial := State(None, "", None, false, "", [], "", false)

  /** The message a failed request leaves: the handler's own message when the
      response was not ok, the exception's message otherwise. */
  function FailureMessage<T>(outcome: Fetched<T>, notOkMessage: string): string
    requires !outcome.Ok?
  {
    if outcome.NotOk? then notOkMessage else outcome.message
  }

  /** The assistant turn a finished chat request appends. */
  function ReplyText(outcome: Fetched<string>): string {
    if outcome.Ok? then outcome.data else ErrorPrefix + FailureMessage(outcome, ChatFailedMessage)
  }

  // ---------------------------------------------------------------------------
  // The transitions, as functions of the state
  // ---------------------------------------------------------------------------

  /** handleFileChange and handleFileDrop: both do the same with the first file, if any. */
  function SelectFile(s: State, selected: Option<SelectedFile>): State {
    if selected.None? then s
    else s.(file := selected, fileName := selected.value.name, analysis := None, error := "", chatHistory := [])
  }

  /** The input's onChange. */
  function TypeMessage(s: State, text: string): State {
    s.(userMessage := text)
  }

  /** handleAnalyze up to its await. */
  function AnalyzeStart(s: State): State {
    if s.file.None? then s.(error := NoFileMessage)
    else s.(isLoading := true, error := "", analysis := None, chatHistory := [])
  }

  /** handleAnalyze after its await. */
  function AnalyzeComplete(s: State, outcome: Fetched<Analysis>): State {
    if outcome.Ok? then s.(analysis := Some(outcome.data), isLoading := false)
    else s.(error := FailureMessage(outcome, AnalyzeFailedMessage), isLoading := false)
  }

  /** The guard of handleSendMessage: a message that is not blank, no chat request in
      flight and an analysis held. */
  predicate CanSend(s: State) {
    JsTrim(s.userMessage) != "" && !s.isChatLoading && s.analysis.Some?
  }

  /** handleSendMessage up to its await; the request and snapshot when the guard passes. */
  function SendStart(s: State): (State, Option<PendingChat>) {
    if !CanSend(s) then (s, None)
    else
      var newChatHistory := s.chatHistory + [ChatTurn(User, s.userMessage)];
      (s.(chatHistory := newChatHistory, userMessage := "", isChatLoading := true),
       Some(PendingChat(newChatHistory, ChatRequest(s.userMessage, s.analysis.value.documentId))))
  }

  /** handleSendMessage after its await: the history becomes the snapshot plus the reply. */
  function SendComplete(s: State, pending: PendingChat, outcome: Fetched<string>): State {
    s.(chatHistory := pending.snapshot + [ChatTurn(Assistant, ReplyText(outcome))], isChatLoading := false)
  }

  // ---------------------------------------------------------------------------
  // What is rendered
  // ---------------------------------------------------------------------------

  /** The upload view (file picker, drop zone, analyze button). */
  predicate UploadShown(s: State) {
    s.analysis.None? && !s.isLoading
  }

  /** The loading panel. */
  predicate LoadingShown(s: State) {
    s.isLoading
  }

  /** The analysis and chat view. */
  predicate AnalysisShown(s: State) {
    s.analysis.Some? && !s.isLoading
  }

  /** The five situations the component can be in: Idle (no file chosen, nothing
      held), Ready (a file chosen, no analysis held), Analyzing (an analysis request
      in flight), Analyzed (an analysis held, no question in flight) and Awaiting (an
      analysis held and a chat question in flight). */
  datatype Mode = Idle | Ready | Analyzing | Analyzed | Awaiting

  /** The situation a component state is in; the three views follow it, so exactly
      one of them is rendered at any time. */
  function ModeOf(s: State): (m: Mode)
    ensures UploadShown(s) <==> m == Idle || m == Ready
    ensures LoadingShown(s) <==> m == Analyzing
    ensures AnalysisShown(s) <==> m == Analyzed || m == Awaiting
    ensures m == Idle <==> UploadShown(s) && s.file.None?
    ensures m == Awaiting <==> AnalysisShown(s) && s.isChatLoading
    ensures !(UploadShown(s) && AnalysisShown(s)) && !(UploadShown(s) && LoadingShown(s))
    ensures UploadShown(s) || LoadingShown(s) || AnalysisShown(s)
  {
    if s.isLoading then Analyzing
    else if s.analysis.Some? then (if s.isChatLoading then Awaiting else Analyzed)
    else if s.file.Some? then Ready
    else Idle
  }

  // ---------------------------------------------------------------------------
  // The component
  // ---------------------------------------------------------------------------

  class App {
    var file: Option<SelectedFile>
    var fileName: string
    var analysis: Option<Analysis>
    var isLoading: bool
    var error: string
    var chatHistory: seq<ChatTurn>
    var userMessage: string
    var isChatLoading: bool

    function Snapshot(): State
      reads this
    {
      State(file, fileName, analysis, isLoading, error, chatHistory, userMessage, isChatLoading)
    }

    /** The initial values of the useState hooks. */
    constructor ()
      ensures Snapshot() == Initial
      ensures ModeOf(Snapshot()) == Idle
    {
      file := None;
      fileName := "";
      analysis := None;
      isLoading := false;
      error := "";
      chatHistory := [];
      userMessage := "";
      isChatLoading := false;
    }

    /** handleFileChange / handleFileDrop with the first file of the event, if any:
        a file replaces the old one and clears analysis, error and chat history
        together; no file changes nothing. */
    method HandleFileSelection(selected: Option<SelectedFile>)
      modifies this
      ensures Snapshot() == SelectFile(old(Snapshot()), selected)
      ensures selected.None? ==> Snapshot() == old(Snapshot())
      ensures selected.Some? ==>
        && file == selected && fileName == selected.value.name
        && analysis.None? && error == "" && chatHistory == []
      ensures isLoading == old(isLoading) && userMessage == old(userMessage) && isChatLoading == old(isChatLoading)
    {
      if selected.Some? {
        file := selected;
        fileName := selected.value.name;
        analysis := None;
        error := "";
        chatHistory := [];
      }
    }

    /** The message input's onChange. */
    method HandleTyping(text: string)
      modifies this
      ensures Snapshot() == TypeMessage(old(Snapshot()), text)
      ensures userMessage == text
    {
      userMessage := text;
    }

    /** handleAnalyze up to the await. Returns the file it posts as the `document`
        field, or None when it refused for want of a file: then only the error changes.
        Otherwise loading starts and error, analysis and chat history are cleared in one step. */
    method HandleAnalyzeStart() returns (posted: Option<SelectedFile>)
      modifies this
      ensures Snapshot() == AnalyzeStart(old(Snapshot()))
      ensures posted == old(file)
      ensures posted.None? ==> Snapshot() == old(Snapshot()).(error := NoFileMessage)
      ensures posted.Some? ==>
        && isLoading && error == "" && analysis.None? && chatHistory == []
        && file == old(file) && fileName == old(fileName)
        && userMessage == old(userMessage) && isChatLoading == old(isChatLoading)
      ensures posted.Some? ==> ModeOf(Snapshot()) == Analyzing
    {
      if file.None? {
        error := NoFileMessage;
        return None;
      }
      isLoading := true;
      error := "";
      analysis := None;
      chatHistory := [];
      posted := file;
    }

    /** handleAnalyze after the await: the analysis on success, the error message on
        failure; loading ends either way and the file stays. */
    method HandleAnalyzeComplete(outcome: Fetched<Analysis>)
      modifies this
      ensures Snapshot() == AnalyzeComplete(old(Snapshot()), outcome)
      ensures outcome.Ok? ==> analysis == Some(outcome.data) && error == old(error)
      ensures !outcome.Ok? ==> error == FailureMessage(outcome, AnalyzeFailedMessage) && analysis == old(analysis)
      ensures !isLoading
      ensures file == old(file) && fileName == old(fileName) && chatHistory == old(chatHistory)
      ensures userMessage == old(userMessage) && isChatLoading == old(isChatLoading)
    {
      if outcome.Ok? {
        analysis := Some(outcome.data);
      } else {
        error := FailureMessage(outcome, AnalyzeFailedMessage);
      }
      isLoading := false;
    }

    /** handleSendMessage up to the await. When the guard refuses, nothing changes and
        no request is made. Otherwise the user turn (the message as typed, untrimmed)
        is appended, the input cleared and the chat marked busy; the request carries
        the message and the held analysis' document id. */
    method HandleSendStart() returns (pending: Option<PendingChat>)
      modifies this
      ensures Snapshot() == SendStart(old(Snapshot())).0
      ensures pending == SendStart(old(Snapshot())).1
      ensures !CanSend(old(Snapshot())) ==> pending.None? && Snapshot() == old(Snapshot())
      ensures CanSend(old(Snapshot())) ==>
        && pending.Some?
        && pending.value.request == ChatRequest(old(userMessage), old(analysis).value.documentId)
        && chatHistory == pending.value.snapshot == old(chatHistory) + [ChatTurn(User, old(userMessage))]
        && userMessage == "" && isChatLoading
        && file == old(file) && fileName == old(fileName) && analysis == old(analysis)
        && isLoading == old(isLoading) && error == old(error)
    {
      if !CanSend(Snapshot()) {
        return None;
      }
      var newChatHistory := chatHistory + [ChatTurn(User, userMessage)];
      var request := ChatRequest(userMessage, analysis.value.documentId);
      chatHistory := newChatHistory;
      userMessage := "";
      isChatLoading := true;
      pending := Some(PendingChat(newChatHistory, request));
    }

    /** handleSendMessage after the await: the history becomes the start's snapshot plus
        one assistant turn, the answer or "Error: " and the failure message, whatever
        the history was meanwhile; the chat is no longer busy. */
    method HandleSendComplete(pending: PendingChat, outcome: Fetched<string>)
      modifies this
      ensures Snapshot() == SendComplete(old(Snapshot()), pending, outcome)
      ensures chatHistory == pending.snapshot + [ChatTurn(Assistant, ReplyText(outcome))]
      ensures outcome.Ok? ==> chatHistory[|chatHistory| - 1].content == outcome.data
      ensures !isChatLoading
      ensures file == old(file) && fileName == old(fileName) && analysis == old(analysis)
      ensures isLoading == old(isLoading) && error == old(error) && userMessage == old(userMessage)
    {
      chatHistory := pending.snapshot + [ChatTurn(Assistant, ReplyText(outcome))];
      isChatLoading := false;
    }
  }
}
