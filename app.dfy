/** The single-screen orchestrator of App.tsx as an explicit state value with
    one transition function per handler. Each handler is one atomic step; an
    awaited request is split into the step that issues it and the step that
    handles its outcome, and the outcome is a parameter. Ids and clock
    readings are parameters too; local storage is part of the state. */
module App {
  import opened Wrappers
  import opened Types
  import opened Chat
  import History

  const Passphrase := "xiuxiu"
  const UnlockedValue := "true"
  const AnalyzeFallback := "分析失败"
  const AskFailureMessage := "伙伴 Neo 掉线了，稍后再试。"
  const PartnerWelcome := ChatMessage("partner-welcome", Neo, "嫂夫人好，我是 Neo。今天在外面跑业务辛苦了，请问我有什么可以帮您，随时为您效劳。")
  const HistoryWelcome := ChatMessage("history-welcome", Neo, "这是之前的案例，有什么新动态吗？")

  datatype AppState = AppState(
    authenticated: bool,
    passwordInput: string,
    authError: bool,
    unlocked: Option<string>,   // the 'neo_app_unlocked' storage entry
    tab: Tab,
    inputText: string,
    selectedImage: string,      // "" when no image is selected
    loading: LoadingState,
    result: Option<AnalysisResult>,
    error: Option<string>,
    lanes: Lanes,
    question: string,
    asking: bool,
    history: History.HistoryState,
    showHistory: bool,
    analyses: seq<string>,          // analysis requests in flight, each with the text it captured
    pendingAsk: Option<PendingAsk>) // the follow-up request in flight, as its closure captured it

  /** Every state reachable from startup keeps the history list equal to its
      stored copy and the unlocked flag in step with the login state; a
      follow-up is in flight exactly when the asking flag is set; ANALYZING
      always has a request in flight, and IDLE none. */
  predicate Inv(s: AppState) {
    s.history.Synced()
    && (s.authenticated <==> s.unlocked == Some(UnlockedValue))
    && (s.asking <==> s.pendingAsk.Some?)
    && (s.loading == Analyzing ==> |s.analyses| > 0)
    && (s.loading == Idle ==> s.analyses == [])
  }

  /** First render followed by the mount effect that reads local storage. */
  function Init(unlocked: Option<string>, stored: History.Stored): (s: AppState)
    ensures Inv(s)
    ensures s.authenticated <==> unlocked == Some(UnlockedValue)
    ensures s.unlocked == unlocked && s.passwordInput == "" && !s.authError
    ensures s.loading == Idle && s.tab == Combat && s.result == None && s.error == None
    ensures s.inputText == "" && s.selectedImage == "" && s.question == ""
    ensures !s.asking && s.pendingAsk == None && s.analyses == [] && !s.showHistory
    ensures s.lanes == Lanes([], [PartnerWelcome])
    ensures s.history.items == History.Restore(stored) && s.history.stored == stored
  {
    AppState(unlocked == Some(UnlockedValue), "", false, unlocked, Combat, "", "", Idle, None, None,
             Lanes([], [PartnerWelcome]), "", false, History.Startup(stored), false, [], None)
  }

  // ---------------------------------------------------------------- login

  /** handleLogin: exact comparison with the passphrase. */
  function Login(s: AppState): (r: AppState)
    ensures r.authenticated <==> s.authenticated || s.passwordInput == Passphrase
    ensures s.passwordInput == Passphrase ==> r.unlocked == Some(UnlockedValue) && r.authError == s.authError
    ensures s.passwordInput != Passphrase ==> r.authError && r.unlocked == s.unlocked
    ensures r.(authenticated := s.authenticated, unlocked := s.unlocked, authError := s.authError) == s
  {
    if s.passwordInput == Passphrase then s.(authenticated := true, unlocked := Some(UnlockedValue))
    else s.(authError := true)
  }

  /** handleLogout. */
  function Logout(s: AppState): (r: AppState)
    ensures !r.authenticated && r.unlocked == None
    ensures r.(authenticated := s.authenticated, unlocked := s.unlocked) == s
  {
    s.(authenticated := false, unlocked := None)
  }

  // ------------------------------------------------------------- analysis

  predicate CanAnalyze(s: AppState) {
    s.inputText != "" || s.selectedImage != ""
  }

  /** The message shown for a failed analysis: the error's own text, or the
      fallback when that text is empty. */
  function ErrorText(message: string): (r: string)
    ensures r != ""
    ensures message != "" ==> r == message
    ensures message == "" ==> r == AnalyzeFallback
  {
    if message != "" then message else AnalyzeFallback
  }

  /** The deep reading of the first decoding item as a template literal shows
      it; an empty list prints as "undefined". */
  function FirstDeep(decoding: seq<DecodingItem>): string {
    if |decoding| > 0 then decoding[0].deep else "undefined"
  }

  function WelcomeMessage(data: AnalysisResult): ChatMessage {
    ChatMessage("welcome", Neo, "分析完了。阻力：" + data.trust.resistance + "，潜台词：" + FirstDeep(data.decoding) + "。试试我的话术。")
  }

  /** handleAnalyze up to its await: a no-op with neither text nor image,
      otherwise the analysis starts with result, error and combat lane cleared,
      and a request carrying the current text is in flight. */
  function BeginAnalyze(s: AppState): (r: AppState)
    ensures !CanAnalyze(s) ==> r == s
    ensures CanAnalyze(s) ==> (r.loading == Analyzing && r.result == None && r.error == None
      && r.lanes == Lanes([], s.lanes.partner)
      && r.analyses == s.analyses + [s.inputText])
    ensures CanAnalyze(s) ==>
      r.(loading := s.loading, result := s.result, error := s.error, lanes := s.lanes, analyses := s.analyses) == s
  {
    if !CanAnalyze(s) then s
    else s.(loading := Analyzing, error := None, result := None, lanes := s.lanes.(combat := []),
            analyses := s.analyses + [s.inputText])
  }

  /** The in-flight list without its i-th request. */
  function RemoveAt(xs: seq<string>, i: nat): (r: seq<string>)
    requires i < |xs|
    ensures |r| == |xs| - 1
    ensures forall k :: 0 <= k < i ==> r[k] == xs[k]
    ensures forall k :: i <= k < |r| ==> r[k] == xs[k + 1]
  {
    xs[..i] + xs[i + 1..]
  }

  /** handleAnalyze after its await, for the i-th request in flight, whose
      text was captured when it was issued; `outcome` is what analyzeChat
      produced. */
  function FinishAnalyze(s: AppState, i: nat, outcome: Result<AnalysisResult, string>, id: string, now: int): (r: AppState)
    requires i < |s.analyses|
    ensures r.analyses == RemoveAt(s.analyses, i)
    ensures outcome.Ok? ==> (r.loading == Success && r.result == Some(outcome.value)
      && r.lanes == Lanes([WelcomeMessage(outcome.value)], s.lanes.partner)
      && r.history == History.SaveToHistory(s.history, outcome.value, s.analyses[i], id, now))
    ensures outcome.Ok? ==>
      r.(loading := s.loading, result := s.result, lanes := s.lanes, history := s.history, analyses := s.analyses) == s
    ensures outcome.Err? ==> (r.loading == Error && r.error == Some(ErrorText(outcome.error)))
    ensures outcome.Err? ==>
      r.(loading := s.loading, error := s.error, analyses := s.analyses) == s
  {
    var rest := RemoveAt(s.analyses, i);
    match outcome
    case Ok(data) =>
      s.(result := Some(data), history := History.SaveToHistory(s.history, data, s.analyses[i], id, now),
         loading := Success, lanes := s.lanes.(combat := [WelcomeMessage(data)]), analyses := rest)
    case Err(message) =>
      s.(error := Some(ErrorText(message)), loading := Error, analyses := rest)
  }

  /** The whole of handleAnalyze when nothing else happens during the request. */
  function HandleAnalyze(s: AppState, outcome: Result<AnalysisResult, string>, id: string, now: int): (r: AppState)
    ensures !CanAnalyze(s) ==> r == s
    ensures CanAnalyze(s) && outcome.Ok? ==>
      r.loading == Success && r.result == Some(outcome.value) && r.error == None
      && r.lanes.combat == [WelcomeMessage(outcome.value)] && r.lanes.partner == s.lanes.partner
      && r.history.Synced()
      && |r.history.items| == History.Min(|s.history.items| + 1, History.MaxEntries)
      && r.history.items[0] == History.HistoryItem(id, now, History.Preview(s.inputText), outcome.value)
      && r.history.items[1..] == s.history.items[..|r.history.items| - 1]
    ensures CanAnalyze(s) && outcome.Err? ==>
      r.loading == Error && r.result == None && r.lanes.combat == [] && r.lanes.partner == s.lanes.partner
      && r.history == s.history
      && r.error == Some(if outcome.error == "" then AnalyzeFallback else outcome.error)
    ensures CanAnalyze(s) ==>
      r.(loading := s.loading, result := s.result, error := s.error, lanes := s.lanes, history := s.history) == s
  {
    if !CanAnalyze(s) then s
    else
      var t := BeginAnalyze(s);
      var r := FinishAnalyze(t, |s.analyses|, outcome, id, now);
      assert RemoveAt(t.analyses, |s.analyses|) == s.analyses;
      r
  }

  /** loadHistoryItem: the stored result is shown as a fresh combat case. */
  function LoadHistoryItem(s: AppState, item: History.HistoryItem): (r: AppState)
    ensures r.result == Some(item.result) && r.loading == Success && r.tab == Combat && !r.showHistory
    ensures r.lanes == Lanes([HistoryWelcome], s.lanes.partner)
    ensures r.(result := s.result, loading := s.loading, tab := s.tab, showHistory := s.showHistory, lanes := s.lanes) == s
  {
    s.(result := Some(item.result), loading := Success, tab := Combat, showHistory := false,
       lanes := s.lanes.(combat := [HistoryWelcome]))
  }

  /** The clear-history button. */
  function ClearHistory(s: AppState): (r: AppState)
    ensures r.history.items == [] && r.history.stored == History.Absent
    ensures r.(history := s.history) == s
  {
    s.(history := History.ClearHistory(s.history))
  }

  // ------------------------------------------------------------- asking

  /** The characters String.prototype.trim removes: white space and line
      terminators of ECMAScript. */
  predicate IsJsWhitespace(c: char) {
    var n := c as int;
    (9 <= n <= 13) || n == 0x20 || n == 0xA0 || n == 0x1680 || (0x2000 <= n <= 0x200A)
    || n == 0x2028 || n == 0x2029 || n == 0x202F || n == 0x205F || n == 0x3000 || n == 0xFEFF
  }

  function TrimStart(s: string): (r: string)
    ensures |r| <= |s| && r == s[|s| - |r|..]
    ensures r != "" ==> !IsJsWhitespace(r[0])
    ensures r == "" <==> forall i :: 0 <= i < |s| ==> IsJsWhitespace(s[i])
  {
    if s != [] && IsJsWhitespace(s[0]) then TrimStart(s[1..]) else s
  }

  function TrimEnd(s: string): (r: string)
    ensures r <= s
    ensures r == "" <==> forall i :: 0 <= i < |s| ==> IsJsWhitespace(s[i])
  {
    if s != [] && IsJsWhitespace(s[|s| - 1]) then TrimEnd(s[..|s| - 1]) else s
  }

  function Trim(s: string): string {
    TrimEnd(TrimStart(s))
  }

  /** A question is ignored exactly when trimming leaves nothing, i.e. when it
      is all white space. */
  lemma TrimEmptyIffBlank(q: string)
    ensures Trim(q) == "" <==> forall i :: 0 <= i < |q| ==> IsJsWhitespace(q[i])
  {
    var t := TrimStart(q);
    if t != "" {
      assert !IsJsWhitespace(t[0]);
      assert TrimEnd(t) != "";
    }
  }

  /** What handleAskNeo hands to the follow-up client: the question, the lane
      it was asked in, that lane as it was before the question was added, and
      the current result as context in the combat lane only. */
  datatype PendingAsk = PendingAsk(question: string, tab: Tab, history: seq<ChatMessage>, context: Option<AnalysisResult>)

  function AskRequest(s: AppState): (r: Option<PendingAsk>)
    ensures r.None? <==> Trim(s.question) == "" || s.asking
    ensures r.Some? ==> (r.value.question == s.question && r.value.tab == s.tab
      && r.value.history == s.lanes.Lane(s.tab)
      && r.value.context == (if s.tab == Combat then s.result else None))
  {
    if Trim(s.question) == "" || s.asking then None
    else Some(PendingAsk(s.question, s.tab, s.lanes.Lane(s.tab), if s.tab == Combat then s.result else None))
  }

  /** handleAskNeo up to its await: the request is recorded as in flight. */
  function BeginAsk(s: AppState, id: string): (r: AppState)
    ensures AskRequest(s).None? ==> r == s
    ensures AskRequest(s).Some? ==> (r.asking && r.question == "" && r.pendingAsk == AskRequest(s)
      && r.lanes == s.lanes.Append(s.tab, ChatMessage(id, User, s.question)))
    ensures AskRequest(s).Some? ==>
      r.(question := s.question, lanes := s.lanes, asking := s.asking, pendingAsk := s.pendingAsk) == s
  {
    match AskRequest(s)
    case None => s
    case Some(p) =>
      s.(question := "", lanes := s.lanes.Append(s.tab, ChatMessage(id, User, s.question)), asking := true,
         pendingAsk := Some(p))
  }

  /** handleAskNeo after its await: the reply goes to the lane the question was
      asked in, whatever tab is showing now; a failure sets the notice. */
  function FinishAsk(s: AppState, p: PendingAsk, answer: Result<string, string>, id: string): (r: AppState)
    ensures !r.asking && r.pendingAsk == None
    ensures answer.Ok? ==> r.lanes == s.lanes.Append(p.tab, ChatMessage(id, Neo, answer.value)) && r.error == s.error
    ensures answer.Err? ==> r.lanes == s.lanes && r.error == Some(AskFailureMessage)
    ensures r.(lanes := s.lanes, error := s.error, asking := s.asking, pendingAsk := s.pendingAsk) == s
  {
    match answer
    case Ok(text) => s.(lanes := s.lanes.Append(p.tab, ChatMessage(id, Neo, text)), asking := false, pendingAsk := None)
    case Err(_) => s.(error := Some(AskFailureMessage), asking := false, pendingAsk := None)
  }

  /** The whole of handleAskNeo when nothing else happens during the request:
      only the active lane grows, by the question and then the reply. */
  function HandleAskNeo(s: AppState, answer: Result<string, string>, userId: string, neoId: string): (r: AppState)
    ensures Trim(s.question) == "" || s.asking ==> r == s
    ensures !(Trim(s.question) == "" || s.asking) ==>
      r.lanes.Lane(s.tab) == s.lanes.Lane(s.tab) + [ChatMessage(userId, User, s.question)]
        + (if answer.Ok? then [ChatMessage(neoId, Neo, answer.value)] else [])
      && (forall t :: t != s.tab ==> r.lanes.Lane(t) == s.lanes.Lane(t))
      && r.question == "" && !r.asking && r.pendingAsk == None
      && r.error == (if answer.Ok? then s.error else Some(AskFailureMessage))
    ensures !(Trim(s.question) == "" || s.asking) ==>
      r.(lanes := s.lanes, question := s.question, asking := s.asking, error := s.error, pendingAsk := s.pendingAsk) == s
  {
    match AskRequest(s)
    case None => s
    case Some(p) => FinishAsk(BeginAsk(s, userId), p, answer, neoId)
  }

  /** An outputTranscription fragment of the live call: always merged into the
      partner lane, whichever tab is showing. */
  function OnTranscript(s: AppState, fragment: string, stamp: string): (r: AppState)
    ensures r.lanes.combat == s.lanes.combat
    ensures r.lanes.partner == MergeTranscript(s.lanes.partner, fragment, stamp)
    ensures r.(lanes := s.lanes) == s
  {
    s.(lanes := s.lanes.(partner := MergeTranscript(s.lanes.partner, fragment, stamp)))
  }

  // ------------------------------------------------------------- runs

  datatype Event =
    | TypePassword(password: string)
    | SubmitLogin
    | AuthErrorTimeout
    | SubmitLogout
    | SelectTab(tab: Tab)
    | TypeText(text: string)
    | SelectImage(dataUrl: string)
    | TypeQuestion(question: string)
    | ToggleHistory(open: bool)
    | StartAnalysis
    | AnalysisDone(index: nat, outcome: Result<AnalysisResult, string>, id: string, now: int)
    | StartAsk(id: string)
    | AskDone(answer: Result<string, string>, id: string)
    | LoadHistory(item: History.HistoryItem)
    | ClearAllHistory
    | Transcript(fragment: string, stamp: string)

  /** One event. A completion answers a request in flight: AnalysisDone names
      one of the analyses in flight and AskDone answers the recorded follow-up;
      a completion with no such request cannot occur and changes nothing. */
  function Step(s: AppState, e: Event): AppState {
    match e
    case TypePassword(p) => s.(passwordInput := p)
    case SubmitLogin => Login(s)
    case AuthErrorTimeout => s.(authError := false)
    case SubmitLogout => Logout(s)
    case SelectTab(t) => s.(tab := t)
    case TypeText(t) => s.(inputText := t)
    case SelectImage(url) => s.(selectedImage := url)
    case TypeQuestion(q) => s.(question := q)
    case ToggleHistory(open) => s.(showHistory := open)
    case StartAnalysis => if s.loading == Analyzing then s else BeginAnalyze(s)  // the button is disabled while analyzing
    case AnalysisDone(i, outcome, id, now) =>
      if i < |s.analyses| then FinishAnalyze(s, i, outcome, id, now) else s
    case StartAsk(id) => BeginAsk(s, id)
    case AskDone(answer, id) =>
      if s.pendingAsk.Some? then FinishAsk(s, s.pendingAsk.value, answer, id) else s
    case LoadHistory(item) => LoadHistoryItem(s, item)
    case ClearAllHistory => ClearHistory(s)
    case Transcript(fragment, stamp) => OnTranscript(s, fragment, stamp)
  }

  function Run(s: AppState, events: seq<Event>): AppState
    decreases |events|
  {
    if events == [] then s else Run(Step(s, events[0]), events[1..])
  }

  /** No event breaks the invariant. */
  lemma StepKeepsInv(s: AppState, e: Event)
    requires Inv(s)
    ensures Inv(Step(s, e))
  {
    match e {
      case StartAnalysis =>
        if s.loading != Analyzing {
          assert Inv(BeginAnalyze(s));
        }
      case AnalysisDone(i, outcome, id, now) =>
        if i < |s.analyses| {
          var r := FinishAnalyze(s, i, outcome, id, now);
          assert r.loading != Analyzing && r.loading != Idle;
        }
      case StartAsk(id) =>
        assert Inv(BeginAsk(s, id));
      case AskDone(answer, id) =>
      case SubmitLogin =>
        assert Inv(Login(s));
      case SubmitLogout =>
        assert Inv(Logout(s));
      case LoadHistory(item) =>
        assert Inv(LoadHistoryItem(s, item));
      case _ =>
    }
  }

  /** No sequence of events breaks the invariant. */
  lemma {:induction false} RunKeepsInv(s: AppState, events: seq<Event>)
    requires Inv(s)
    ensures Inv(Run(s, events))
    decreases |events|
  {
    if events != [] {
      StepKeepsInv(s, events[0]);
      RunKeepsInv(Step(s, events[0]), events[1..]);
    }
  }

  /** The loading state leaves IDLE only through an analysis or a loaded
      history item, and never returns to it. */
  lemma {:induction false} NeverBackToIdle(s: AppState, events: seq<Event>)
    requires s.loading != Idle
    ensures Run(s, events).loading != Idle
    decreases |events|
  {
    if events != [] {
      LoadingEdges(s, events[0]);
      NeverBackToIdle(Step(s, events[0]), events[1..]);
    }
  }

  /** Each step moves the loading state along the analysis machine's edges:
      into ANALYZING on a start, into SUCCESS or ERROR when a request in flight
      returns, into SUCCESS when a past case is loaded, and nowhere otherwise. */
  lemma LoadingEdges(s: AppState, e: Event)
    ensures var l := Step(s, e).loading;
      l == s.loading
      || (e.StartAnalysis? && l == Analyzing)
      || (e.AnalysisDone? && e.index < |s.analyses| && (l == Success || l == Error))
      || (e.LoadHistory? && l == Success)
  {
  }

  /** Without a start, no analysis finishes: nothing comes into flight, and
      the loading state either stays or shows a loaded past case. */
  lemma {:induction false} NoStartNoFinish(s: AppState, events: seq<Event>)
    requires s.analyses == []
    requires forall k :: 0 <= k < |events| ==> !events[k].StartAnalysis?
    ensures Run(s, events).analyses == []
    ensures Run(s, events).loading == s.loading || Run(s, events).loading == Success
    ensures Run(s, events).loading != s.loading ==> exists k :: 0 <= k < |events| && events[k].LoadHistory?
    decreases |events|
  {
    if events != [] {
      var e := events[0];
      var t := Step(s, e);
      var rest := events[1..];
      assert Run(s, events) == Run(t, rest);
      NoStartKeepsIdleFlight(s, e);
      LoadingEdges(s, e);
      assert forall k :: 0 <= k < |rest| ==> rest[k] == events[k + 1];
      NoStartNoFinish(t, rest);
      if Run(t, rest).loading != s.loading && !e.LoadHistory? {
        var k :| 0 <= k < |rest| && rest[k].LoadHistory?;
        assert events[k + 1] == rest[k];
      }
    }
  }

  /** Without a completion, the loading state never becomes ERROR. */
  lemma {:induction false} NoFinishNoError(s: AppState, events: seq<Event>)
    requires s.loading != Error
    requires forall k :: 0 <= k < |events| ==> !events[k].AnalysisDone?
    ensures Run(s, events).loading != Error
    decreases |events|
  {
    if events != [] {
      LoadingEdges(s, events[0]);
      NoFinishNoError(Step(s, events[0]), events[1..]);
    }
  }

  /** With nothing in flight, any event but a start keeps nothing in flight. */
  lemma NoStartKeepsIdleFlight(s: AppState, e: Event)
    requires s.analyses == [] && !e.StartAnalysis?
    ensures Step(s, e).analyses == []
  {
    match e {
      case AnalysisDone(i, outcome, id, now) =>
      case StartAsk(id) =>
        assert BeginAsk(s, id).analyses == s.analyses;
      case AskDone(answer, id) =>
      case SubmitLogin =>
        assert Login(s).analyses == s.analyses;
      case SubmitLogout =>
        assert Logout(s).analyses == s.analyses;
      case LoadHistory(item) =>
        assert LoadHistoryItem(s, item).analyses == s.analyses;
      case _ =>
    }
  }

  /** From a state with nothing in flight, reaching ERROR takes an analysis
      started and, later, an analysis finished. */
  lemma {:induction false} ErrorFollowsStartAndFinish(s: AppState, events: seq<Event>)
    requires s.analyses == [] && s.loading != Error
    requires Run(s, events).loading == Error
    ensures exists i, j :: 0 <= i < j < |events| && events[i].StartAnalysis? && events[j].AnalysisDone?
    decreases |events|
  {
    assert events != [];
    var e := events[0];
    var t := Step(s, e);
    var rest := events[1..];
    assert Run(s, events) == Run(t, rest);
    if e.StartAnalysis? {
      if forall k :: 0 <= k < |rest| ==> !rest[k].AnalysisDone? {
        LoadingEdges(s, e);
        NoFinishNoError(t, rest);
        assert false;
      }
      var k :| 0 <= k < |rest| && rest[k].AnalysisDone?;
      assert events[k + 1] == rest[k];
    } else {
      NoStartKeepsIdleFlight(s, e);
      LoadingEdges(s, e);
      ErrorFollowsStartAndFinish(t, rest);
      var i, j :| 0 <= i < j < |rest| && rest[i].StartAnalysis? && rest[j].AnalysisDone?;
      assert events[i + 1] == rest[i] && events[j + 1] == rest[j];
    }
  }
}
