/** The application shell: the generation session with its history of title batches and its
    history of script variants, each with a cursor, driven by the page's handlers. */
module App {
  import opened Types
  import GeminiService
  import ScriptModal

  /** `generateViralTitles`, with the key and the provider fixed: a batch or an error. */
  type TitlesService = FormData -> Result<seq<GeneratedTitle>, GeminiService.ServiceError>

  /** `generateViralScript(title, formData)`: a script or an error message. */
  type ScriptService = (string, FormData) -> Result<GeneratedScript, string>

  const GenerateError: string := "Erro ao gerar títulos. Verifique sua API Key ou tente novamente mais tarde."
  const LoadMoreError: string := "Erro ao gerar mais títulos. Tente novamente."
  const IdleMessage: string := "Processando..."
  const StartMessage: string := "Iniciando..."
  const ProfileMessage: string := "Analisando Perfil do Avatar..."
  const StrategyMessage: string := "Definindo Estratégia de Retenção..."
  const WritingMessage: string := "Escrevendo Títulos Virais..."

  /** The page's state, one field per state hook. */
  datatype Session = Session(
    status: StepStatus,
    loadingMessage: string,
    titleBatches: seq<seq<GeneratedTitle>>,
    currentBatchIndex: int,
    lastFormData: Option<FormData>,
    errorMsg: Option<string>,
    isScriptModalOpen: bool,
    scriptHistory: seq<GeneratedScript>,
    currentScriptIndex: int,
    scriptLoading: bool,
    selectedTitleForScript: string)

  function Initial(): Session {
    Session(Idle, IdleMessage, [], 0, None, None, false, [], 0, false, "")
  }

  /** The cursor invariant the handlers keep. The batch cursor never passes the end of the
      history and points at a batch whenever results are shown, which needs a form snapshot;
      the script cursor only stays non-negative, since reset empties the script history
      without moving it back. */
  predicate Invariant(s: Session) {
    && 0 <= s.currentBatchIndex <= |s.titleBatches|
    && (s.status == Success ==> s.currentBatchIndex < |s.titleBatches| && s.lastFormData.Some?)
    && 0 <= s.currentScriptIndex
  }

  /** The script half of the state is the same in both. */
  predicate SameScripts(a: Session, b: Session) {
    && a.isScriptModalOpen == b.isScriptModalOpen
    && a.scriptHistory == b.scriptHistory
    && a.currentScriptIndex == b.currentScriptIndex
    && a.scriptLoading == b.scriptLoading
    && a.selectedTitleForScript == b.selectedTitleForScript
  }

  /** The title half of the state is the same in both. */
  predicate SameTitles(a: Session, b: Session) {
    && a.status == b.status
    && a.loadingMessage == b.loadingMessage
    && a.titleBatches == b.titleBatches
    && a.currentBatchIndex == b.currentBatchIndex
    && a.lastFormData == b.lastFormData
    && a.errorMsg == b.errorMsg
  }

  /** The first half of `handleGenerate`, before the service answers: loading, no error, the
      form as the snapshot and the last of the progress messages; nothing else changes. */
  function StartGeneration(s: Session, formData: FormData): (r: Session)
    ensures r.status == Loading && r.errorMsg == None && r.lastFormData == Some(formData)
    ensures r.loadingMessage == WritingMessage
    ensures r.titleBatches == s.titleBatches && r.currentBatchIndex == s.currentBatchIndex
    ensures SameScripts(r, s)
  {
    s.(status := Loading, loadingMessage := WritingMessage, errorMsg := None, lastFormData := Some(formData))
  }

  /** `handleGenerate`: the form becomes the snapshot; a result replaces the whole history
      with one batch, a failure reports the error and keeps the history. */
  function Generate(s: Session, formData: FormData, titles: TitlesService): (r: Session)
    ensures r.lastFormData == Some(formData) && r.loadingMessage == WritingMessage
    ensures titles(formData).Ok? ==>
      r.status == Success && r.titleBatches == [titles(formData).value]
      && r.currentBatchIndex == 0 && r.errorMsg == None
    ensures titles(formData).Err? ==>
      r.status == Error && r.errorMsg == Some(GenerateError)
      && r.titleBatches == s.titleBatches && r.currentBatchIndex == s.currentBatchIndex
    ensures SameScripts(r, s)
  {
    var loading := StartGeneration(s, formData);
    match titles(formData)
    case Ok(results) => loading.(titleBatches := [results], currentBatchIndex := 0, status := Success)
    case Err(_) => loading.(errorMsg := Some(GenerateError), status := Error)
  }

  /** `handleLoadMore`: nothing without a snapshot; a result is appended and the cursor moves
      one step; a failure only reports the error. */
  function LoadMore(s: Session, titles: TitlesService): (r: Session)
    ensures s.lastFormData.None? ==> r == s
    ensures s.lastFormData.Some? && titles(s.lastFormData.value).Ok? ==>
      r.titleBatches == s.titleBatches + [titles(s.lastFormData.value).value]
      && r.currentBatchIndex == s.currentBatchIndex + 1
      && r.status == s.status && r.errorMsg == s.errorMsg
    ensures s.lastFormData.Some? && titles(s.lastFormData.value).Err? ==>
      r.titleBatches == s.titleBatches && r.currentBatchIndex == s.currentBatchIndex
      && r.status == s.status && r.errorMsg == Some(LoadMoreError)
    ensures r.lastFormData == s.lastFormData && r.loadingMessage == s.loadingMessage
    ensures SameScripts(r, s)
  {
    if s.lastFormData.None? then s
    else
      match titles(s.lastFormData.value)
      case Ok(newResults) =>
        s.(titleBatches := s.titleBatches + [newResults], currentBatchIndex := s.currentBatchIndex + 1)
      case Err(_) => s.(errorMsg := Some(LoadMoreError))
  }

  /** The "previous" arrow is enabled. */
  predicate HasPreviousBatch(s: Session) {
    s.currentBatchIndex > 0
  }

  /** The "next" arrow is enabled. */
  predicate HasNextBatch(s: Session) {
    s.currentBatchIndex < |s.titleBatches| - 1
  }

  function PreviousBatch(s: Session): (r: Session)
    ensures HasPreviousBatch(s) ==> r == s.(currentBatchIndex := s.currentBatchIndex - 1)
    ensures !HasPreviousBatch(s) ==> r == s
  {
    if s.currentBatchIndex > 0 then s.(currentBatchIndex := s.currentBatchIndex - 1) else s
  }

  function NextBatch(s: Session): (r: Session)
    ensures HasNextBatch(s) ==> r == s.(currentBatchIndex := s.currentBatchIndex + 1)
    ensures !HasNextBatch(s) ==> r == s
  {
    if s.currentBatchIndex < |s.titleBatches| - 1 then s.(currentBatchIndex := s.currentBatchIndex + 1) else s
  }

  /** `handleReset`: back to the form with nothing remembered, except that the script cursor,
      the script dialog and the loading message stay as they were. */
  function Reset(s: Session): (r: Session)
    ensures r.status == Idle && r.titleBatches == [] && r.currentBatchIndex == 0
    ensures r.errorMsg == None && r.lastFormData == None && r.scriptHistory == []
    ensures r.currentScriptIndex == s.currentScriptIndex && r.isScriptModalOpen == s.isScriptModalOpen
    ensures r.scriptLoading == s.scriptLoading && r.selectedTitleForScript == s.selectedTitleForScript
    ensures r.loadingMessage == s.loadingMessage
  {
    s.(status := Idle, titleBatches := [], currentBatchIndex := 0, errorMsg := None,
      lastFormData := None, scriptHistory := [])
  }

  /** `handleCreateScript`: opens the dialog on an empty history for the chosen title; with a
      snapshot, a script becomes the only entry and loading ends whatever the outcome; without
      one, the dialog keeps loading. */
  function CreateScript(s: Session, title: string, script: ScriptService): (r: Session)
    ensures r.selectedTitleForScript == title && r.isScriptModalOpen && r.currentScriptIndex == 0
    ensures s.lastFormData.None? ==> r.scriptHistory == [] && r.scriptLoading
    ensures s.lastFormData.Some? && script(title, s.lastFormData.value).Ok? ==>
      r.scriptHistory == [script(title, s.lastFormData.value).value] && !r.scriptLoading
    ensures s.lastFormData.Some? && script(title, s.lastFormData.value).Err? ==>
      r.scriptHistory == [] && !r.scriptLoading
    ensures SameTitles(r, s)
  {
    var shown := s.(selectedTitleForScript := title, scriptHistory := [], currentScriptIndex := 0,
      isScriptModalOpen := true, scriptLoading := true);
    if s.lastFormData.None? then shown
    else
      match script(title, s.lastFormData.value)
      case Ok(sc) => shown.(scriptHistory := [sc], scriptLoading := false)
      case Err(_) => shown.(scriptLoading := false)
  }

  /** Regenerate needs a chosen title and a snapshot. */
  predicate CanRegenerate(s: Session) {
    s.selectedTitleForScript != "" && s.lastFormData.Some?
  }

  /** `handleRegenerateScript`: a new variant is appended and the cursor moves one step; a
      failure leaves the history as it was. */
  function RegenerateScript(s: Session, script: ScriptService): (r: Session)
    ensures !CanRegenerate(s) ==> r == s
    ensures CanRegenerate(s) && script(s.selectedTitleForScript, s.lastFormData.value).Ok? ==>
      r.scriptHistory == s.scriptHistory + [script(s.selectedTitleForScript, s.lastFormData.value).value]
      && r.currentScriptIndex == s.currentScriptIndex + 1
    ensures CanRegenerate(s) && script(s.selectedTitleForScript, s.lastFormData.value).Err? ==>
      r.scriptHistory == s.scriptHistory && r.currentScriptIndex == s.currentScriptIndex
    ensures CanRegenerate(s) ==> !r.scriptLoading
    ensures r.isScriptModalOpen == s.isScriptModalOpen && r.selectedTitleForScript == s.selectedTitleForScript
    ensures SameTitles(r, s)
  {
    if !CanRegenerate(s) then s
    else
      var loading := s.(scriptLoading := true);
      match script(s.selectedTitleForScript, s.lastFormData.value)
      case Ok(newScript) =>
        loading.(scriptHistory := s.scriptHistory + [newScript],
          currentScriptIndex := s.currentScriptIndex + 1, scriptLoading := false)
      case Err(_) => loading.(scriptLoading := false)
  }

  predicate HasPreviousScript(s: Session) {
    s.currentScriptIndex > 0
  }

  predicate HasNextScript(s: Session) {
    s.currentScriptIndex < |s.scriptHistory| - 1
  }

  function ScriptPrev(s: Session): (r: Session)
    ensures HasPreviousScript(s) ==> r == s.(currentScriptIndex := s.currentScriptIndex - 1)
    ensures !HasPreviousScript(s) ==> r == s
  {
    if s.currentScriptIndex > 0 then s.(currentScriptIndex := s.currentScriptIndex - 1) else s
  }

  function ScriptNext(s: Session): (r: Session)
    ensures HasNextScript(s) ==> r == s.(currentScriptIndex := s.currentScriptIndex + 1)
    ensures !HasNextScript(s) ==> r == s
  {
    if s.currentScriptIndex < |s.scriptHistory| - 1 then s.(currentScriptIndex := s.currentScriptIndex + 1) else s
  }

  /** The dialog's close button. */
  function CloseScriptModal(s: Session): (r: Session)
    ensures !r.isScriptModalOpen && r == s.(isScriptModalOpen := false)
  {
    s.(isScriptModalOpen := false)
  }

  /** The results list replaces the form only on success with at least one batch. */
  predicate ShowsResults(s: Session) {
    s.status == Success && |s.titleBatches| > 0
  }

  /** `titleBatches[currentBatchIndex]`, absent when the cursor is outside the history. */
  function DisplayedBatch(s: Session): (b: Option<seq<GeneratedTitle>>)
    ensures b.Some? <==> 0 <= s.currentBatchIndex < |s.titleBatches|
    ensures b.Some? ==> b.value == s.titleBatches[s.currentBatchIndex]
  {
    if 0 <= s.currentBatchIndex < |s.titleBatches| then Some(s.titleBatches[s.currentBatchIndex]) else None
  }

  /** `scriptHistory[currentScriptIndex]`, absent when the cursor is outside the history. */
  function CurrentScript(s: Session): (sc: Option<GeneratedScript>)
    ensures sc.Some? <==> 0 <= s.currentScriptIndex < |s.scriptHistory|
    ensures sc.Some? ==> sc.value == s.scriptHistory[s.currentScriptIndex]
  {
    if 0 <= s.currentScriptIndex < |s.scriptHistory| then Some(s.scriptHistory[s.currentScriptIndex]) else None
  }

  /** One handler invocation. An action that calls a service carries the reply of that call,
      so that two calls with the same form may be answered differently. */
  datatype Action =
    | GenerateAction(formData: FormData, titlesReply: Result<seq<GeneratedTitle>, GeminiService.ServiceError>)
    | LoadMoreAction(titlesReply: Result<seq<GeneratedTitle>, GeminiService.ServiceError>)
    | PreviousBatchAction
    | NextBatchAction
    | ResetAction
    | CreateScriptAction(title: string, scriptReply: Result<GeneratedScript, string>)
    | RegenerateScriptAction(scriptReply: Result<GeneratedScript, string>)
    | ScriptPrevAction
    | ScriptNextAction
    | CloseScriptAction

  /** A titles service that gives `reply` to every call. */
  function TitlesAnswer(reply: Result<seq<GeneratedTitle>, GeminiService.ServiceError>): TitlesService {
    d => reply
  }

  /** A script service that gives `reply` to every call. */
  function ScriptAnswer(reply: Result<GeneratedScript, string>): ScriptService {
    (t, d) => reply
  }

  function Step(s: Session, a: Action): Session {
    match a
    case GenerateAction(d, reply) => Generate(s, d, TitlesAnswer(reply))
    case LoadMoreAction(reply) => LoadMore(s, TitlesAnswer(reply))
    case PreviousBatchAction => PreviousBatch(s)
    case NextBatchAction => NextBatch(s)
    case ResetAction => Reset(s)
    case CreateScriptAction(t, reply) => CreateScript(s, t, ScriptAnswer(reply))
    case RegenerateScriptAction(reply) => RegenerateScript(s, ScriptAnswer(reply))
    case ScriptPrevAction => ScriptPrev(s)
    case ScriptNextAction => ScriptNext(s)
    case CloseScriptAction => CloseScriptModal(s)
  }

  /** The handlers run one after another, each as one atomic step. */
  function Run(s: Session, acts: seq<Action>): Session
    decreases |acts|
  {
    if acts == [] then s else Run(Step(s, acts[0]), acts[1..])
  }

  lemma InitialInvariant()
    ensures Invariant(Initial())
  {
  }

  /** Every handler keeps the cursor invariant, whatever the services answer. */
  lemma StepKeepsInvariant(s: Session, a: Action)
    requires Invariant(s)
    ensures Invariant(Step(s, a))
  {
  }

  /** Any sequence of handlers keeps the cursor invariant. */
  lemma {:induction false} RunKeepsInvariant(s: Session, acts: seq<Action>)
    requires Invariant(s)
    ensures Invariant(Run(s, acts))
    decreases |acts|
  {
    if acts != [] {
      StepKeepsInvariant(s, acts[0]);
      RunKeepsInvariant(Step(s, acts[0]), acts[1..]);
    }
  }

  /** The control that triggers the action is on the page: the form's submit button only
      while the form is shown and no generation is running, and the list's buttons (load-more,
      the arrows, a title's script button) only while the list is shown. */
  predicate Offered(s: Session, a: Action) {
    match a
    case GenerateAction(_, _) => !ShowsResults(s) && s.status != Loading
    case LoadMoreAction(_) => ShowsResults(s)
    case PreviousBatchAction => ShowsResults(s)
    case NextBatchAction => ShowsResults(s)
    case CreateScriptAction(_, _) => ShowsResults(s)
    case _ => true
  }

  /** Every action of the sequence is offered in the state it is taken in. */
  predicate OfferedRun(s: Session, acts: seq<Action>)
    decreases |acts|
  {
    acts == [] || (Offered(s, acts[0]) && OfferedRun(Step(s, acts[0]), acts[1..]))
  }

  /** The cursor invariant plus: a non-empty history always has the cursor on a batch. */
  predicate CursorOnBatch(s: Session) {
    Invariant(s) && (|s.titleBatches| > 0 ==> s.currentBatchIndex < |s.titleBatches|)
  }

  /** An offered handler keeps the cursor on a batch. */
  lemma OfferedStepKeepsCursorOnBatch(s: Session, a: Action)
    requires CursorOnBatch(s) && Offered(s, a)
    ensures CursorOnBatch(Step(s, a))
  {
  }

  /** When every action is taken through a control on the page, the cursor of a non-empty
      history is always on a batch. */
  lemma {:induction false} OfferedRunKeepsCursorOnBatch(s: Session, acts: seq<Action>)
    requires CursorOnBatch(s) && OfferedRun(s, acts)
    ensures CursorOnBatch(Run(s, acts))
    decreases |acts|
  {
    if acts != [] {
      OfferedStepKeepsCursorOnBatch(s, acts[0]);
      OfferedRunKeepsCursorOnBatch(Step(s, acts[0]), acts[1..]);
    }
  }

  /** The handlers themselves do not guard load-more on the list being shown: after a failed
      first generation, a successful load-more leaves one batch with the cursor past it. */
  lemma LoadMoreAfterFailedGenerate(d: FormData, batch: seq<GeneratedTitle>, e: GeminiService.ServiceError)
    ensures var failed := Step(Initial(), GenerateAction(d, Err(e)));
      && !Offered(failed, LoadMoreAction(Ok(batch)))
      && var r := Step(failed, LoadMoreAction(Ok(batch)));
      |r.titleBatches| == 1 && r.currentBatchIndex == 1 && !CursorOnBatch(r)
  {
  }

  /** Only a new generation and reset drop title batches. */
  predicate KeepsBatches(a: Action) {
    !a.GenerateAction? && !a.ResetAction?
  }

  /** Only a new script and reset drop script variants. */
  predicate KeepsScripts(a: Action) {
    !a.CreateScriptAction? && !a.ResetAction?
  }

  /** Without a generation or a reset, every batch already in the history stays where it is. */
  lemma {:induction false} BatchesOnlyGrow(s: Session, acts: seq<Action>)
    requires forall k :: 0 <= k < |acts| ==> KeepsBatches(acts[k])
    ensures var r := Run(s, acts);
      |s.titleBatches| <= |r.titleBatches| && r.titleBatches[..|s.titleBatches|] == s.titleBatches
    decreases |acts|
  {
    if acts != [] {
      var t := Step(s, acts[0]);
      assert |s.titleBatches| <= |t.titleBatches| && t.titleBatches[..|s.titleBatches|] == s.titleBatches;
      BatchesOnlyGrow(t, acts[1..]);
      var r := Run(t, acts[1..]);
      assert r.titleBatches[..|s.titleBatches|] == r.titleBatches[..|t.titleBatches|][..|s.titleBatches|];
    }
  }

  /** Without a new script or a reset, every script variant stays where it is. */
  lemma {:induction false} ScriptsOnlyGrow(s: Session, acts: seq<Action>)
    requires forall k :: 0 <= k < |acts| ==> KeepsScripts(acts[k])
    ensures var r := Run(s, acts);
      |s.scriptHistory| <= |r.scriptHistory| && r.scriptHistory[..|s.scriptHistory|] == s.scriptHistory
    decreases |acts|
  {
    if acts != [] {
      var t := Step(s, acts[0]);
      assert |s.scriptHistory| <= |t.scriptHistory| && t.scriptHistory[..|s.scriptHistory|] == s.scriptHistory;
      ScriptsOnlyGrow(t, acts[1..]);
      var r := Run(t, acts[1..]);
      assert r.scriptHistory[..|s.scriptHistory|] == r.scriptHistory[..|t.scriptHistory|][..|s.scriptHistory|];
    }
  }

  /** A successful first generation leaves exactly one batch on screen. */
  lemma FirstGenerationShowsOneBatch(formData: FormData, titles: TitlesService)
    requires titles(formData).Ok?
    ensures var r := Generate(Initial(), formData, titles);
      ShowsResults(r) && DisplayedBatch(r) == Some(titles(formData).value) && |r.titleBatches| == 1
      && !HasPreviousBatch(r) && !HasNextBatch(r)
  {
  }

  /** The arrows move the cursor exactly when their flag is on, by one step, and keep it on a
      batch when it starts on one. */
  lemma BatchNavigation(s: Session)
    ensures PreviousBatch(s) != s <==> HasPreviousBatch(s)
    ensures NextBatch(s) != s <==> HasNextBatch(s)
    ensures 0 <= s.currentBatchIndex < |s.titleBatches| ==>
      0 <= PreviousBatch(s).currentBatchIndex < |s.titleBatches|
      && 0 <= NextBatch(s).currentBatchIndex < |s.titleBatches|
  {
  }

  /** The same for the script arrows. */
  lemma ScriptNavigation(s: Session)
    ensures ScriptPrev(s) != s <==> HasPreviousScript(s)
    ensures ScriptNext(s) != s <==> HasNextScript(s)
    ensures 0 <= s.currentScriptIndex < |s.scriptHistory| ==>
      0 <= ScriptPrev(s).currentScriptIndex < |s.scriptHistory|
      && 0 <= ScriptNext(s).currentScriptIndex < |s.scriptHistory|
  {
  }

  /** Reset twice is reset once. */
  lemma ResetIdempotent(s: Session)
    ensures Reset(Reset(s)) == Reset(s)
  {
  }

  /** While results are shown, the cursor points at a batch and the "i/n" indicator is within
      range. */
  lemma ShownBatchInRange(s: Session)
    requires Invariant(s) && ShowsResults(s)
    ensures DisplayedBatch(s).Some?
    ensures 1 <= s.currentBatchIndex + 1 <= |s.titleBatches|
  {
  }

  /** Load-more moves to the new batch only when the cursor was on the last batch: from an
      earlier batch it lands on the batch after the old position. */
  lemma LoadMoreLandsOnNewBatch(s: Session, titles: TitlesService)
    requires s.lastFormData.Some? && titles(s.lastFormData.value).Ok?
    ensures var r := LoadMore(s, titles);
      r.currentBatchIndex == |r.titleBatches| - 1 <==> s.currentBatchIndex == |s.titleBatches| - 1
  {
  }

  /** The same holds for regenerating a script. */
  lemma RegenerateLandsOnNewScript(s: Session, script: ScriptService)
    requires CanRegenerate(s) && script(s.selectedTitleForScript, s.lastFormData.value).Ok?
    ensures var r := RegenerateScript(s, script);
      r.currentScriptIndex == |r.scriptHistory| - 1 <==> s.currentScriptIndex == |s.scriptHistory| - 1
  {
  }

  /** After a failed first script, a successful regenerate leaves the dialog pointing past its
      only script: nothing is shown and nothing can be exported, although "previous" is enabled. */
  lemma RegenerateAfterFailedCreate(s: Session, title: string, script: ScriptService, retry: ScriptService)
    requires title != "" && s.lastFormData.Some?
    requires script(title, s.lastFormData.value).Err? && retry(title, s.lastFormData.value).Ok?
    ensures var r := RegenerateScript(CreateScript(s, title, script), retry);
      |r.scriptHistory| == 1 && CurrentScript(r) == None && HasPreviousScript(r)
      && ScriptModal.ScriptText(CurrentScript(r)) == ""
  {
  }

  /** After reset the dialog has no script to show, so copy and download have nothing to do. */
  lemma ResetClearsExport(s: Session)
    ensures CurrentScript(Reset(s)) == None
    ensures ScriptModal.ExportPayload(CurrentScript(Reset(s))) == None
  {
  }

  /** The page, with its state hooks as fields. */
  class SessionController {
    var status: StepStatus
    var loadingMessage: string
    var titleBatches: seq<seq<GeneratedTitle>>
    var currentBatchIndex: int
    var lastFormData: Option<FormData>
    var errorMsg: Option<string>
    var isScriptModalOpen: bool
    var scriptHistory: seq<GeneratedScript>
    var currentScriptIndex: int
    var scriptLoading: bool
    var selectedTitleForScript: string

    function State(): Session
      reads this
    {
      Session(status, loadingMessage, titleBatches, currentBatchIndex, lastFormData, errorMsg,
        isScriptModalOpen, scriptHistory, currentScriptIndex, scriptLoading, selectedTitleForScript)
    }

    predicate Valid()
      reads this
    {
      Invariant(State())
    }

    constructor()
      ensures State() == Initial() && Valid()
    {
      status := Idle;
      loadingMessage := IdleMessage;
      titleBatches := [];
      currentBatchIndex := 0;
      lastFormData := None;
      errorMsg := None;
      isScriptModalOpen := false;
      scriptHistory := [];
      currentScriptIndex := 0;
      scriptLoading := false;
      selectedTitleForScript := "";
    }

    /** The steps of `handleGenerate` before the service call, progress messages included. */
    method StartGenerating(formData: FormData)
      modifies this
      ensures State() == StartGeneration(old(State()), formData)
    {
      status := Loading;
      loadingMessage := StartMessage;
      errorMsg := None;
      lastFormData := Some(formData);
      loadingMessage := ProfileMessage;
      loadingMessage := StrategyMessage;
      loadingMessage := WritingMessage;
    }

    method HandleGenerate(formData: FormData, titles: TitlesService)
      modifies this
      ensures State() == Generate(old(State()), formData, titles)
      ensures old(Valid()) ==> Valid()
    {
      StartGenerating(formData);
      var results := titles(formData);
      if results.Ok? {
        titleBatches := [results.value];
        currentBatchIndex := 0;
        status := Success;
      } else {
        errorMsg := Some(GenerateError);
        status := Error;
      }
    }

    method HandleLoadMore(titles: TitlesService)
      modifies this
      ensures State() == LoadMore(old(State()), titles)
      ensures old(Valid()) ==> Valid()
    {
      if lastFormData.None? {
        return;
      }
      var newResults := titles(lastFormData.value);
      if newResults.Ok? {
        titleBatches := titleBatches + [newResults.value];
        currentBatchIndex := currentBatchIndex + 1;
      } else {
        errorMsg := Some(LoadMoreError);
      }
    }

    method HandlePreviousBatch()
      modifies this`currentBatchIndex
      ensures State() == PreviousBatch(old(State()))
      ensures old(Valid()) ==> Valid()
    {
      if currentBatchIndex > 0 {
        currentBatchIndex := currentBatchIndex - 1;
      }
    }

    method HandleNextBatch()
      modifies this`currentBatchIndex
      ensures State() == NextBatch(old(State()))
      ensures old(Valid()) ==> Valid()
    {
      if currentBatchIndex < |titleBatches| - 1 {
        currentBatchIndex := currentBatchIndex + 1;
      }
    }

    method HandleReset()
      modifies this
      ensures State() == Reset(old(State()))
      ensures old(Valid()) ==> Valid()
    {
      status := Idle;
      titleBatches := [];
      currentBatchIndex := 0;
      errorMsg := None;
      lastFormData := None;
      scriptHistory := [];
    }

    method HandleCreateScript(title: string, script: ScriptService)
      modifies this
      ensures State() == CreateScript(old(State()), title, script)
      ensures old(Valid()) ==> Valid()
    {
      selectedTitleForScript := title;
      scriptHistory := [];
      currentScriptIndex := 0;
      isScriptModalOpen := true;
      scriptLoading := true;
      if lastFormData.None? {
        return;
      }
      var generated := script(title, lastFormData.value);
      if generated.Ok? {
        scriptHistory := [generated.value];
        scriptLoading := false;
      } else {
        scriptLoading := false;
      }
    }

    method HandleRegenerateScript(script: ScriptService)
      modifies this
      ensures State() == RegenerateScript(old(State()), script)
      ensures old(Valid()) ==> Valid()
    {
      if selectedTitleForScript == "" || lastFormData.None? {
        return;
      }
      scriptLoading := true;
      var newScript := script(selectedTitleForScript, lastFormData.value);
      if newScript.Ok? {
        scriptHistory := scriptHistory + [newScript.value];
        currentScriptIndex := currentScriptIndex + 1;
        scriptLoading := false;
      } else {
        scriptLoading := false;
      }
    }

    method HandleScriptPrev()
      modifies this`currentScriptIndex
      ensures State() == ScriptPrev(old(State()))
      ensures old(Valid()) ==> Valid()
    {
      if currentScriptIndex > 0 {
        currentScriptIndex := currentScriptIndex - 1;
      }
    }

    method HandleScriptNext()
      modifies this`currentScriptIndex
      ensures State() == ScriptNext(old(State()))
      ensures old(Valid()) ==> Valid()
    {
      if currentScriptIndex < |scriptHistory| - 1 {
        currentScriptIndex := currentScriptIndex + 1;
      }
    }

    /** The dialog's `onClose`. */
    method HandleCloseScriptModal()
      modifies this`isScriptModalOpen
      ensures State() == CloseScriptModal(old(State()))
      ensures old(Valid()) ==> Valid()
    {
      isScriptModalOpen := false;
    }
  }
}
