/**
 * Runs of the front-end session: the component state together with the requests
 * in flight, the events the rendered page offers, and what holds along every run
 * that starts from the initial state. The handlers have no check for stale
 * responses; what keeps a reply from landing in the wrong session is that the
 * page hides the file picker and the analyze button whenever a request is in
 * flight or an analysis is held.
 */
module SessionRuns {
  import opened Wrappers
  import opened Text
  import opened Session

  /** The component state and the requests awaiting their response. */
  datatype World = World(state: State, analyzeInFlight: bool, chatInFlight: Option<PendingChat>)

  /** What can happen next: a user action or the arrival of a response. */
  datatype Event =
    | ChooseFile(selected: Option<SelectedFile>)
    | Type(text: string)
    | ClickAnalyze
    | AnalyzeReturns(analyzed: Fetched<Analysis>)
    | ClickSend
    | ChatReturns(answered: Fetched<string>)

  const Start := World(Initial, false, None)

  /** The events the rendered page offers: the file input and drop zone and the
      analyze button live in the upload view, the button being disabled without a
      file or while loading; the message input (disabled while a question is in
      flight) and the send controls live in the analysis view; a response can only
      arrive for a request in flight. */
  predicate Enabled(w: World, e: Event) {
    match e
    case ChooseFile(_) => UploadShown(w.state)
    case Type(_) => AnalysisShown(w.state) && !w.state.isChatLoading
    case ClickAnalyze => UploadShown(w.state) && w.state.file.Some?
    case AnalyzeReturns(_) => w.analyzeInFlight
    case ClickSend => AnalysisShown(w.state)
    case ChatReturns(_) => w.chatInFlight.Some?
  }

  /** One event, applied through the handler it triggers. */
  function Next(w: World, e: Event): World {
    match e
    case ChooseFile(selected) => w.(state := SelectFile(w.state, selected))
    case Type(text) => w.(state := TypeMessage(w.state, text))
    case ClickAnalyze =>
      w.(state := AnalyzeStart(w.state), analyzeInFlight := w.analyzeInFlight || w.state.file.Some?)
    case AnalyzeReturns(outcome) =>
      if w.analyzeInFlight then World(AnalyzeComplete(w.state, outcome), false, w.chatInFlight) else w
    case ClickSend =>
      var (t, p) := SendStart(w.state);
      w.(state := t, chatInFlight := if p.Some? then p else w.chatInFlight)
    case ChatReturns(outcome) =>
      if w.chatInFlight.Some? then World(SendComplete(w.state, w.chatInFlight.value, outcome), w.analyzeInFlight, None)
      else w
  }

  /** Every event of es is offered by the page when it happens. */
  predicate ValidRun(w: World, es: seq<Event>)
    decreases |es|
  {
    es == [] || (Enabled(w, es[0]) && ValidRun(Next(w, es[0]), es[1..]))
  }

  function Run(w: World, es: seq<Event>): World
    decreases |es|
  {
    if es == [] then w else Run(Next(w, es[0]), es[1..])
  }

  /** User and assistant turns alternate, starting with the user. */
  predicate Alternating(h: seq<ChatTurn>) {
    forall i :: 0 <= i < |h| ==> h[i].role == (if i % 2 == 0 then User else Assistant)
  }

  /** The invariant of the session: the loading flags match the requests in flight;
      no analysis is held while one is being made; a chat history exists only beside
      an analysis; it alternates user and assistant turns and ends with an unanswered
      user turn exactly while a question is in flight; and that question is the last
      user turn, sent for the held analysis' document, with the current history as
      its snapshot. */
  predicate Coherent(w: World) {
    var s := w.state;
    && s.isLoading == w.analyzeInFlight
    && s.isChatLoading == w.chatInFlight.Some?
    && (s.isLoading ==> s.analysis.None?)
    && (s.analysis.None? ==> s.chatHistory == [] && !s.isChatLoading)
    && Alternating(s.chatHistory)
    && (|s.chatHistory| % 2 == 1 <==> s.isChatLoading)
    && (w.chatInFlight.Some? ==>
          var p := w.chatInFlight.value;
          && p.snapshot == s.chatHistory
          && p.request.documentId == s.analysis.value.documentId
          && p.request.question == s.chatHistory[|s.chatHistory| - 1].content)
  }

  lemma AlternatingAppend(h: seq<ChatTurn>, t: ChatTurn)
    requires Alternating(h)
    requires t.role == (if |h| % 2 == 0 then User else Assistant)
    ensures Alternating(h + [t])
  {
    var h' := h + [t];
    forall i | 0 <= i < |h'| ensures h'[i].role == (if i % 2 == 0 then User else Assistant) {
      if i < |h| { assert h'[i] == h[i]; }
    }
  }

  /** A send the guard accepts appends an unanswered user turn and records the request. */
  lemma SendKeepsCoherent(w: World)
    requires Coherent(w) && Enabled(w, ClickSend)
    ensures Coherent(Next(w, ClickSend))
  {
    var s := w.state;
    if CanSend(s) {
      var h := s.chatHistory + [ChatTurn(User, s.userMessage)];
      AlternatingAppend(s.chatHistory, ChatTurn(User, s.userMessage));
      var p := PendingChat(h, ChatRequest(s.userMessage, s.analysis.value.documentId));
      assert Next(w, ClickSend) ==
        World(s.(chatHistory := h, userMessage := "", isChatLoading := true), w.analyzeInFlight, Some(p));
      assert |h| % 2 == 1;
      assert h[|h| - 1].content == s.userMessage;
    }
  }

  /** A reply answers the last user turn. */
  lemma ReplyKeepsCoherent(w: World, outcome: Fetched<string>)
    requires Coherent(w) && Enabled(w, ChatReturns(outcome))
    ensures Coherent(Next(w, ChatReturns(outcome)))
  {
    AlternatingAppend(w.chatInFlight.value.snapshot, ChatTurn(Assistant, ReplyText(outcome)));
  }

  /** Every event the page offers keeps the session coherent. */
  lemma {:induction false} NextCoherent(w: World, e: Event)
    requires Coherent(w) && Enabled(w, e)
    ensures Coherent(Next(w, e))
  {
    match e
    case ChooseFile(_) =>
    case Type(_) =>
    case ClickAnalyze =>
    case AnalyzeReturns(_) =>
    case ClickSend => SendKeepsCoherent(w);
    case ChatReturns(outcome) => ReplyKeepsCoherent(w, outcome);
  }

  /** Coherence holds along every run the page allows. */
  lemma {:induction false} RunCoherent(w: World, es: seq<Event>)
    requires Coherent(w) && ValidRun(w, es)
    ensures Coherent(Run(w, es))
    decreases |es|
  {
    if es != [] {
      NextCoherent(w, es[0]);
      RunCoherent(Next(w, es[0]), es[1..]);
    }
  }

  /** Every session reachable from the initial state is coherent. */
  lemma Reachable(es: seq<Event>)
    requires ValidRun(Start, es)
    ensures Coherent(Run(Start, es))
  {
    RunCoherent(Start, es);
  }

  /** In a coherent session a chat reply lands on the history it was sent from: it
      appends exactly one assistant turn to the current history and leaves the
      analysis alone, so no stale reply overwrites a newer session. */
  lemma ChatReplyIsCurrent(w: World, outcome: Fetched<string>)
    requires Coherent(w) && w.chatInFlight.Some?
    ensures Next(w, ChatReturns(outcome)).state.chatHistory == w.state.chatHistory + [ChatTurn(Assistant, ReplyText(outcome))]
    ensures Next(w, ChatReturns(outcome)).state.analysis == w.state.analysis
  {
  }

  /** While a request is in flight the page offers no way to choose another file or
      start another analysis, and a second send is refused by the handler's guard:
      at most one question is outstanding. */
  lemma SingleFlight(w: World, selected: Option<SelectedFile>)
    requires Coherent(w)
    ensures w.analyzeInFlight || w.chatInFlight.Some? ==>
      !Enabled(w, ChooseFile(selected)) && !Enabled(w, ClickAnalyze)
    ensures w.chatInFlight.Some? ==> Next(w, ClickSend) == w
  {
  }

  /** The handlers alone would let a stale reply through: a file chosen while a
      question is in flight clears analysis and history, and the reply then writes
      back the old history with its answer, beside no analysis at all. */
  lemma StaleReplyWithoutViewGating(s: State, f: SelectedFile, answer: string)
    requires CanSend(s)
    ensures
      var (t, p) := SendStart(s);
      var v := SendComplete(SelectFile(t, Some(f)), p.value, Ok(answer));
      && v.analysis.None? && v.file == Some(f)
      && v.chatHistory == s.chatHistory + [ChatTurn(User, s.userMessage), ChatTurn(Assistant, answer)]
  {
  }

  /** Analyze from the upload view with a file chosen: on success the analysis is held
      with an empty chat; on failure the file is kept, no analysis is held and the error
      is shown, so the user can retry without choosing the file again. */
  lemma AnalyzeRound(w: World, outcome: Fetched<Analysis>)
    requires Coherent(w) && Enabled(w, ClickAnalyze)
    ensures ModeOf(Next(w, ClickAnalyze).state) == Analyzing
    ensures
      var u := Next(Next(w, ClickAnalyze), AnalyzeReturns(outcome)).state;
      && u.file == w.state.file && u.chatHistory == [] && !u.isLoading
      && (outcome.Ok? ==> ModeOf(u) == Analyzed && u.analysis == Some(outcome.data) && u.error == "")
      && (!outcome.Ok? ==> ModeOf(u) == Ready && u.analysis.None? && u.error == FailureMessage(outcome, AnalyzeFailedMessage))
  {
  }

  /** A question, then the response to it. */
  function Exchange(w: World, question: string, outcome: Fetched<string>): World {
    Next(Next(Next(w, Type(question)), ClickSend), ChatReturns(outcome))
  }

  /** Several exchanges in a row. */
  function Converse(w: World, turns: seq<(string, Fetched<string>)>): World
    decreases |turns|
  {
    if turns == [] then w else Converse(Exchange(w, turns[0].0, turns[0].1), turns[1..])
  }

  /** A settled analysis view: analysis held, nothing in flight. */
  predicate Settled(w: World) {
    Coherent(w) && AnalysisShown(w.state) && !w.state.isChatLoading
  }

  /** One exchange from a settled view: the question and its reply are appended. */
  lemma ExchangeStep(w: World, question: string, outcome: Fetched<string>)
    requires Settled(w) && JsTrim(question) != ""
    ensures Settled(Exchange(w, question, outcome))
    ensures Exchange(w, question, outcome).state.analysis == w.state.analysis
    ensures Exchange(w, question, outcome).state.chatHistory ==
      w.state.chatHistory + [ChatTurn(User, question), ChatTurn(Assistant, ReplyText(outcome))]
  {
    var w1 := Next(w, Type(question));
    var w2 := Next(w1, ClickSend);
    assert CanSend(w1.state);
    SendKeepsCoherent(w1);
    ReplyKeepsCoherent(w2, outcome);
  }

  /** h is h0 followed, for each turn in order, by its question and its reply. */
  predicate Transcript(h0: seq<ChatTurn>, turns: seq<(string, Fetched<string>)>, h: seq<ChatTurn>) {
    && |h| == |h0| + 2 * |turns| && h[..|h0|] == h0
    && forall k :: 0 <= k < |turns| ==>
         h[|h0| + 2 * k] == ChatTurn(User, turns[k].0)
         && h[|h0| + 2 * k + 1] == ChatTurn(Assistant, ReplyText(turns[k].1))
  }

  /** A transcript of the first exchange followed by a transcript of the rest. */
  lemma TranscriptCons(h0: seq<ChatTurn>, turns: seq<(string, Fetched<string>)>, h: seq<ChatTurn>)
    requires turns != []
    requires Transcript(h0 + [ChatTurn(User, turns[0].0), ChatTurn(Assistant, ReplyText(turns[0].1))], turns[1..], h)
    ensures Transcript(h0, turns, h)
  {
    var h1 := h0 + [ChatTurn(User, turns[0].0), ChatTurn(Assistant, ReplyText(turns[0].1))];
    assert h[..|h1|] == h1;
    assert h[..|h0|] == h1[..|h0|];
    forall k | 0 <= k < |turns|
      ensures h[|h0| + 2 * k] == ChatTurn(User, turns[k].0)
      ensures h[|h0| + 2 * k + 1] == ChatTurn(Assistant, ReplyText(turns[k].1))
    {
      if k == 0 {
        assert h[|h0|] == h1[|h0|];
        assert h[|h0| + 1] == h1[|h0| + 1];
      } else {
        assert turns[k] == turns[1..][k - 1];
        assert |h0| + 2 * k == |h1| + 2 * (k - 1);
      }
    }
  }

  /** N exchanges with non-blank questions grow the history by exactly 2N turns, in
      call order: each question as typed, then its answer or error. */
  lemma {:induction false} ConversationGrows(w: World, turns: seq<(string, Fetched<string>)>)
    requires Settled(w)
    requires forall k :: 0 <= k < |turns| ==> JsTrim(turns[k].0) != ""
    ensures Settled(Converse(w, turns))
    ensures Converse(w, turns).state.analysis == w.state.analysis
    ensures Transcript(w.state.chatHistory, turns, Converse(w, turns).state.chatHistory)
    decreases |turns|
  {
    if turns == [] {
      assert w.state.chatHistory[..|w.state.chatHistory|] == w.state.chatHistory;
    } else {
      var w1 := Exchange(w, turns[0].0, turns[0].1);
      ExchangeStep(w, turns[0].0, turns[0].1);
      assert forall k :: 0 <= k < |turns[1..]| ==> JsTrim(turns[1..][k].0) != "" by {
        forall k | 0 <= k < |turns[1..]| ensures JsTrim(turns[1..][k].0) != "" {
          assert turns[1..][k] == turns[k + 1];
        }
      }
      ConversationGrows(w1, turns[1..]);
      TranscriptCons(w.state.chatHistory, turns, Converse(w, turns).state.chatHistory);
    }
  }
}
