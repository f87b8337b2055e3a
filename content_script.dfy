/** The state the content script keeps between events (extension/content.js):
    the runtime-disabled flag, the onboarding timer, the shadow root and the
    modal it hosts, the pending paste, the focus to restore, the listeners
    and the loaded configuration. Each handler is a method of `ContentScript`
    whose new state is given by a pure transition (`Step` and the functions
    it dispatches to); the lemmas state what the transitions guarantee. */
module ContentScript {
  import opened Wrappers
  import opened Logic
  import opened RulePack
  import opened ContentPolicy
  import opened Anonymize
  import opened ContentDom

  /** What the shadow root shows: the detection modal (BLOCK or WARN, with its
      chips) or the onboarding modal. */
  datatype ModalView = Detection(block: bool, chips: ChipSummary) | Onboarding

  /** The script's variables. `timerPending` is an onboarding timer scheduled
      and neither fired nor cleared; `shadowAttached` is a shadow host in the
      page; `storageAttached` is a storage listener registered (the remover
      function being set). */
  datatype ScriptState = ScriptState(
    disabled: bool,
    timerPending: bool,
    shadowAttached: bool,
    modal: Option<ModalView>,
    pendingText: Option<string>,
    pendingMatches: Option<seq<Match>>,
    pendingTarget: Element?,
    lastFocused: Element?,
    pasteAttached: bool,
    storageAttached: bool,
    config: Option<LocalConfig>,
    debugMode: bool,
    hasSeenOnboarding: bool)

  /** The text the modal's "Anonymize" or "Allow once" button writes into the
      field the paste was aimed at. */
  datatype Insertion = Insertion(target: Element, text: string)

  /** The result of one event: the new state, whether the event's default
      action was prevented, the text inserted into a field (if any) and the
      element focus returns to (null for none). */
  datatype Outcome = Outcome(next: ScriptState, prevented: bool, insertion: Option<Insertion>, refocus: Element?)

  /** The events the script handles. `Paste` carries the prompt field found
      from the focused element (null when none), the focused element, the
      pasted text and the detector's matches. `ContextError` is an `error` or
      `unhandledrejection` event with its message (`None` when it has none).
      `SyncLoaded` and `LocalLoaded` are the two storage reads of
      `loadConfig`; `StorageChanged` carries the changed area and, when the
      change touches `hasSeenOnboarding`, whether its new value is truthy. */
  datatype Event =
    | Paste(found: Element?, active: Element?, text: string, matches: seq<Match>)
    | ContextError(message: Option<string>)
    | LocalLoaded(stored: Option<LocalConfig>)
    | SyncLoaded(sync: SyncSettings)
    | StorageChanged(area: string, hasSeenChange: Option<bool>)
    | OnboardingTimerFired
    | ButtonClick(action: string)
    | BackdropClick
    | Keydown(key: string)

  // ---------------------------------------------------------------------------
  // Transitions
  // ---------------------------------------------------------------------------

  /** The state right after the script has run on a page: the storage
      listener is registered when the extension runtime is available, and the
      paste handler only on an AI domain. */
  function Initial(hostname: string, runtimeAvailable: bool): ScriptState {
    ScriptState(false, false, false, None, None, None, null, null,
                IsAiDomain(hostname, Some(AiDomains)), runtimeAvailable, None, false, false)
  }

  /** `teardown`. */
  function TearDownState(s: ScriptState): ScriptState {
    s.(timerPending := false, shadowAttached := false, modal := None,
       pendingText := None, pendingMatches := None, pendingTarget := null, lastFocused := null,
       pasteAttached := false, storageAttached := false)
  }

  /** `handleContextInvalidation`. */
  function Invalidate(s: ScriptState): ScriptState {
    if s.disabled then s else TearDownState(s.(disabled := true))
  }

  /** `clearModal`. */
  function ClearModalState(s: ScriptState): ScriptState {
    s.(modal := None, pendingText := None, pendingMatches := None, pendingTarget := null)
  }

  /** `closeModalSafely`: clear the modal, then forget the element to refocus. */
  function CloseModal(s: ScriptState): ScriptState {
    ClearModalState(s).(lastFocused := null)
  }

  /** The types of the matches, in order, as `matches.map(m => m.type)`. */
  function TypesOf(matches: seq<Match>): (types: seq<string>)
    ensures |types| == |matches| && forall i :: 0 <= i < |matches| ==> types[i] == matches[i].typeId
  {
    seq(|matches|, i requires 0 <= i < |matches| => matches[i].typeId)
  }

  /** `showModal`. */
  function ShowModalState(s: ScriptState, matches: seq<Match>, block: bool, text: string,
                     target: Element?, active: Element?, dataTypes: DataTypes): ScriptState
  {
    if s.disabled then s
    else
      ClearModalState(s.(shadowAttached := true)).(
        lastFocused := active, pendingText := Some(text), pendingMatches := Some(matches),
        pendingTarget := target, modal := Some(Detection(block, Chips(TypesOf(matches), dataTypes))))
  }

  lemma ShowModalFields(s: ScriptState, matches: seq<Match>, block: bool, text: string,
                        target: Element?, active: Element?, dataTypes: DataTypes)
    requires !s.disabled
    ensures ShowModalState(s, matches, block, text, target, active, dataTypes)
            == s.(shadowAttached := true, lastFocused := active, pendingText := Some(text),
                  pendingMatches := Some(matches), pendingTarget := target,
                  modal := Some(Detection(block, Chips(TypesOf(matches), dataTypes))))
  {
  }

  /** `showOnboarding`. */
  function ShowOnboardingState(s: ScriptState): ScriptState {
    if s.hasSeenOnboarding || s.disabled then s
    else ClearModalState(s.(shadowAttached := true)).(modal := Some(Onboarding))
  }

  function Quiet(s: ScriptState): Outcome {
    Outcome(s, false, None, null)
  }

  /** A modal button that closes the modal after writing `insertion`. */
  function Closed(s: ScriptState, insertion: Option<Insertion>): Outcome {
    Outcome(CloseModal(s), false, insertion, s.lastFocused)
  }

  /** The onboarding modal's `dismiss`. */
  function Dismissed(s: ScriptState): Outcome {
    Outcome(CloseModal(s.(hasSeenOnboarding := true)), false, None, s.lastFocused)
  }

  /** The pending text, anonymized or as pasted, for the pending target. */
  function PendingInsertion(s: ScriptState, anonymize: bool, dataTypes: DataTypes): Option<Insertion> {
    if s.pendingTarget == null || s.pendingText.None? then None
    else if anonymize then Some(Insertion(s.pendingTarget, Anonymized(s.pendingText.value, s.pendingMatches, dataTypes)))
    else Some(Insertion(s.pendingTarget, s.pendingText.value))
  }

  /** `handlePaste`, given the prompt field found from the focused element. */
  function PasteOutcome(s: ScriptState, found: Element?, active: Element?, text: string,
                        matches: seq<Match>, cat: Catalogue, dataTypes: DataTypes): Outcome
  {
    if !s.pasteAttached || s.disabled || found == null || text == "" || matches == [] then Quiet(s)
    else
      var d := Decide(Distinct(TypesOf(matches)), s.config, cat);
      if d.action == Allow then Quiet(s)
      else Outcome(ShowModalState(s, matches, d.action == Block, text, found, active, dataTypes), true, None, null)
  }

  /** The sync-storage callback of `loadConfig`. The debug flag is taken from
      the merged configuration only when a preset or rules are stored. */
  function SyncLoadedState(s: ScriptState, sync: SyncSettings, cat: Catalogue): ScriptState {
    var seen := sync.hasSeenOnboarding == Some(true);
    var merged := MergeSync(sync, cat);
    var debug := if sync.preset != "" || sync.rules.Some? then merged.debugMode else s.debugMode;
    s.(hasSeenOnboarding := seen, config := Some(merged), debugMode := debug,
       timerPending := if !seen && !s.disabled then true else s.timerPending)
  }

  /** The handlers of the buttons of whichever modal is shown; a button of a
      modal that is not shown cannot be clicked. */
  function ButtonOutcome(s: ScriptState, action: string, dataTypes: DataTypes): Outcome {
    match s.modal
    case None => Quiet(s)
    case Some(Onboarding) =>
      if action == "dismiss" || action == "settings" then Dismissed(s) else Quiet(s)
    case Some(Detection(block, _)) =>
      if action == "anonymize" then Closed(s, PendingInsertion(s, true, dataTypes))
      else if action == "cancel" && block then Closed(s, None)
      else if action == "allow" && !block then Closed(s, PendingInsertion(s, false, dataTypes))
      else if action == "close" && !block then Closed(s, None)
      else Quiet(s)
  }

  /** A click on the backdrop: dismisses the onboarding modal, closes a WARN
      modal and does nothing to a BLOCK modal. */
  function BackdropOutcome(s: ScriptState): Outcome {
    match s.modal
    case None => Quiet(s)
    case Some(Onboarding) => Dismissed(s)
    case Some(Detection(block, _)) => if block then Quiet(s) else Closed(s, None)
  }

  /** A key pressed in the modal: Escape closes a WARN modal only. */
  function KeydownOutcome(s: ScriptState, key: string): Outcome {
    match s.modal
    case Some(Detection(block, _)) =>
      if key == "Escape" && !block then Closed(s, None) else Quiet(s)
    case _ => Quiet(s)
  }

  /** One event. */
  function Step(s: ScriptState, e: Event, cat: Catalogue, dataTypes: DataTypes): Outcome {
    match e
    case Paste(found, active, text, matches) => PasteOutcome(s, found, active, text, matches, cat, dataTypes)
    case ContextError(message) =>
      if IsExtensionContextError(message) then Outcome(Invalidate(s), true, None, null) else Quiet(s)
    case LocalLoaded(stored) =>
      if stored.Some? then Quiet(s.(config := stored, debugMode := stored.value.debugMode)) else Quiet(s)
    case SyncLoaded(sync) => Quiet(SyncLoadedState(s, sync, cat))
    case StorageChanged(area, change) =>
      if !s.storageAttached || s.disabled || area != "sync" || change.None? then Quiet(s)
      else Quiet(s.(hasSeenOnboarding := change.value))
    case OnboardingTimerFired =>
      if s.timerPending then Quiet(ShowOnboardingState(s.(timerPending := false))) else Quiet(s)
    case ButtonClick(action) => ButtonOutcome(s, action, dataTypes)
    case BackdropClick => BackdropOutcome(s)
    case Keydown(key) => KeydownOutcome(s, key)
  }

  // ---------------------------------------------------------------------------
  // What the transitions guarantee
  // ---------------------------------------------------------------------------

  /** Everything `teardown` clears is clear. */
  predicate TornDown(s: ScriptState) {
    && !s.timerPending && !s.shadowAttached && s.modal.None?
    && s.pendingText.None? && s.pendingMatches.None? && s.pendingTarget == null
    && s.lastFocused == null && !s.pasteAttached && !s.storageAttached
  }

  /** The pending paste exists exactly while a detection modal is shown, and a
      modal is only ever shown inside the shadow root. */
  predicate Consistent(s: ScriptState) {
    && (s.modal.Some? ==> s.shadowAttached)
    && (s.pendingText.Some? <==> s.modal.Some? && s.modal.value.Detection?)
    && (s.pendingMatches.Some? <==> s.pendingText.Some?)
    && (s.pendingTarget != null <==> s.pendingText.Some?)
  }

  /** The invariant of the script: consistent, and once disabled, torn down. */
  predicate Good(s: ScriptState) {
    Consistent(s) && (s.disabled ==> TornDown(s))
  }

  /** `teardown` clears every piece of UI and listener state, keeps the
      configuration and the flags, and a second call changes nothing. */
  lemma TearDownClears(s: ScriptState)
    ensures TornDown(TearDownState(s))
    ensures TearDownState(TearDownState(s)) == TearDownState(s)
    ensures var t := TearDownState(s);
            t.disabled == s.disabled && t.config == s.config && t.debugMode == s.debugMode
            && t.hasSeenOnboarding == s.hasSeenOnboarding
  {
  }

  /** `handleContextInvalidation` disables the script and tears it down on
      the first call, and does nothing on any later call. */
  lemma InvalidateOnce(s: ScriptState)
    ensures Invalidate(s).disabled
    ensures !s.disabled ==> TornDown(Invalidate(s))
    ensures !s.disabled ==> Invalidate(s) == TearDownState(s.(disabled := true))
    ensures s.disabled ==> Invalidate(s) == s
    ensures Invalidate(Invalidate(s)) == Invalidate(s)
  {
  }

  /** The script starts consistent and enabled; the storage listener is
      registered exactly when the runtime is available and the paste handler
      exactly on the four AI domains. */
  lemma InitialGood(hostname: string, runtimeAvailable: bool)
    ensures Good(Initial(hostname, runtimeAvailable))
    ensures !Initial(hostname, runtimeAvailable).disabled
    ensures Initial(hostname, runtimeAvailable).storageAttached == runtimeAvailable
    ensures Initial(hostname, runtimeAvailable).pasteAttached <==>
              hostname in ["chat.openai.com", "chatgpt.com", "claude.ai", "gemini.google.com"]
  {
    AiDomainsExact(hostname);
  }

  /** The error listeners' step, unfolded. */
  lemma StepOnContextError(s: ScriptState, message: Option<string>, cat: Catalogue, dataTypes: DataTypes)
    ensures Step(s, ContextError(message), cat, dataTypes)
            == if IsExtensionContextError(message) then Outcome(Invalidate(s), true, None, null) else Quiet(s)
  {
  }

  /** Every event keeps the invariant: in particular, a disabled script stays
      torn down whatever happens next. */
  lemma StepKeepsGood(s: ScriptState, e: Event, cat: Catalogue, dataTypes: DataTypes)
    requires Good(s)
    ensures Good(Step(s, e, cat, dataTypes).next)
    ensures s.disabled ==> Step(s, e, cat, dataTypes).next.disabled
  {
    if e.Paste? || e.ButtonClick? || e.BackdropClick? || e.Keydown? {
      UserEventKeepsGood(s, e, cat, dataTypes);
    } else if e.ContextError? || e.OnboardingTimerFired? {
      LifecycleKeepsGood(s, e, cat, dataTypes);
    } else {
      StorageKeepsGood(s, e, cat, dataTypes);
    }
  }

  /** The paste and the modal's events keep the invariant. */
  lemma UserEventKeepsGood(s: ScriptState, e: Event, cat: Catalogue, dataTypes: DataTypes)
    requires Good(s) && (e.Paste? || e.ButtonClick? || e.BackdropClick? || e.Keydown?)
    ensures Good(Step(s, e, cat, dataTypes).next)
    ensures s.disabled ==> Step(s, e, cat, dataTypes).next.disabled
  {
    match e {
      case Paste(found, active, text, matches) =>
        PasteKeepsGood(s, found, active, text, matches, cat, dataTypes);
      case ButtonClick(action) =>
        ButtonKeepsGood(s, action, dataTypes);
      case BackdropClick =>
        BackdropKeepsGood(s);
      case Keydown(key) =>
        KeydownKeepsGood(s, key);
    }
  }

  /** Invalidation and the onboarding timer keep the invariant. */
  lemma LifecycleKeepsGood(s: ScriptState, e: Event, cat: Catalogue, dataTypes: DataTypes)
    requires Good(s) && (e.ContextError? || e.OnboardingTimerFired?)
    ensures Good(Step(s, e, cat, dataTypes).next)
    ensures s.disabled ==> Step(s, e, cat, dataTypes).next.disabled
  {
    match e {
      case ContextError(message) =>
        InvalidateOnce(s);
      case OnboardingTimerFired =>
        OnboardingKeepsGood(s);
    }
  }

  /** The storage loads and changes keep the invariant. */
  lemma StorageKeepsGood(s: ScriptState, e: Event, cat: Catalogue, dataTypes: DataTypes)
    requires Good(s) && (e.LocalLoaded? || e.SyncLoaded? || e.StorageChanged?)
    ensures Good(Step(s, e, cat, dataTypes).next)
    ensures s.disabled ==> Step(s, e, cat, dataTypes).next.disabled
  {
  }

  lemma OnboardingKeepsGood(s: ScriptState)
    requires Good(s)
    ensures Good(ShowOnboardingState(s.(timerPending := false)))
    ensures ShowOnboardingState(s.(timerPending := false)).disabled == s.disabled
  {
  }

  lemma PasteKeepsGood(s: ScriptState, found: Element?, active: Element?, text: string,
                       matches: seq<Match>, cat: Catalogue, dataTypes: DataTypes)
    requires Good(s)
    ensures Good(PasteOutcome(s, found, active, text, matches, cat, dataTypes).next)
    ensures PasteOutcome(s, found, active, text, matches, cat, dataTypes).next.disabled == s.disabled
  {
  }

  lemma CloseKeepsGood(s: ScriptState)
    requires Good(s)
    ensures Good(CloseModal(s)) && CloseModal(s).disabled == s.disabled
    ensures Good(CloseModal(s.(hasSeenOnboarding := true)))
    ensures CloseModal(s.(hasSeenOnboarding := true)).disabled == s.disabled
  {
  }

  lemma ButtonKeepsGood(s: ScriptState, action: string, dataTypes: DataTypes)
    requires Good(s)
    ensures Good(ButtonOutcome(s, action, dataTypes).next) && ButtonOutcome(s, action, dataTypes).next.disabled == s.disabled
  {
    CloseKeepsGood(s);
  }

  lemma BackdropKeepsGood(s: ScriptState)
    requires Good(s)
    ensures Good(BackdropOutcome(s).next) && BackdropOutcome(s).next.disabled == s.disabled
  {
    CloseKeepsGood(s);
  }

  lemma KeydownKeepsGood(s: ScriptState, key: string)
    requires Good(s)
    ensures Good(KeydownOutcome(s, key).next) && KeydownOutcome(s, key).next.disabled == s.disabled
  {
    CloseKeepsGood(s);
  }

  /** A disabled script never prevents a paste, never inserts text and never
      shows anything: it fails open. */
  lemma DisabledFailsOpen(s: ScriptState, e: Event, cat: Catalogue, dataTypes: DataTypes)
    requires Good(s) && s.disabled
    ensures var o := Step(s, e, cat, dataTypes);
            o.insertion.None? && o.next.modal.None? && (e.Paste? ==> !o.prevented)
  {
  }

  /** `handlePaste` prevents the paste exactly when the handler is attached,
      the script is not disabled, a prompt field was found, the text is not
      empty, something was detected and the decision is not ALLOW; it then
      shows the BLOCK or WARN modal for that decision and holds the paste as
      pending. Otherwise the state is unchanged. */
  lemma PastePrevented(s: ScriptState, found: Element?, active: Element?, text: string,
                       matches: seq<Match>, cat: Catalogue, dataTypes: DataTypes)
    ensures var o := PasteOutcome(s, found, active, text, matches, cat, dataTypes);
            var d := Decide(Distinct(TypesOf(matches)), s.config, cat);
            && (o.prevented <==>
                  s.pasteAttached && !s.disabled && found != null && text != "" && matches != [] && d.action != Allow)
            && (o.prevented ==>
                  && o.next.modal == Some(Detection(d.action == Block, Chips(TypesOf(matches), dataTypes)))
                  && o.next.pendingText == Some(text) && o.next.pendingMatches == Some(matches)
                  && o.next.pendingTarget == found && o.next.lastFocused == active)
            && (!o.prevented ==> o.next == s)
            && o.insertion.None?
  {
  }

  /** A BLOCK modal ignores the close button, the backdrop and Escape (it has
      no close button and no allow button): only Cancel and Anonymize close
      it. */
  lemma BlockModalNeedsChoice(s: ScriptState, chips: ChipSummary, action: string, key: string, dataTypes: DataTypes)
    requires s.modal == Some(Detection(true, chips))
    ensures BackdropOutcome(s) == Quiet(s)
    ensures KeydownOutcome(s, key) == Quiet(s)
    ensures ButtonOutcome(s, action, dataTypes).next.modal.None? <==> action in ["anonymize", "cancel"]
    ensures ButtonOutcome(s, action, dataTypes).insertion.Some? ==> action == "anonymize"
  {
    if action == "anonymize" || action == "cancel" {
      assert ButtonOutcome(s, action, dataTypes).next == CloseModal(s);
    } else {
      assert ButtonOutcome(s, action, dataTypes) == Quiet(s);
    }
  }

  /** A WARN modal is closed by the backdrop, by Escape and by each of its
      buttons except Settings; only Anonymize and Allow once write text. */
  lemma WarnModalCloses(s: ScriptState, chips: ChipSummary, action: string, key: string, dataTypes: DataTypes)
    requires s.modal == Some(Detection(false, chips))
    ensures BackdropOutcome(s).next == CloseModal(s)
    ensures KeydownOutcome(s, key).next == (if key == "Escape" then CloseModal(s) else s)
    ensures ButtonOutcome(s, action, dataTypes).next.modal.None? <==> action in ["anonymize", "allow", "close"]
    ensures ButtonOutcome(s, action, dataTypes).insertion.Some? ==> action in ["anonymize", "allow"]
  {
  }

  /** Anonymize writes the pending text with every match replaced into the
      pending field, closes the modal and returns focus to the element that
      had it when the modal opened. */
  lemma AnonymizeWritesPending(s: ScriptState, block: bool, chips: ChipSummary, dataTypes: DataTypes)
    requires Consistent(s) && s.modal == Some(Detection(block, chips))
    ensures var o := ButtonOutcome(s, "anonymize", dataTypes);
            && o.insertion == Some(Insertion(s.pendingTarget, Anonymized(s.pendingText.value, s.pendingMatches, dataTypes)))
            && o.refocus == s.lastFocused
            && o.next.modal.None? && o.next.pendingText.None? && o.next.lastFocused == null
  {
  }

  /** The onboarding modal appears only to a user who has not seen it, on an
      enabled script; dismissing it records that it was seen, and it is not
      shown again while that holds. */
  lemma OnboardingOnce(s: ScriptState)
    ensures ShowOnboardingState(s).modal == Some(Onboarding) <==>
              (!s.hasSeenOnboarding && !s.disabled) || s.modal == Some(Onboarding)
    ensures s.modal == Some(Onboarding) ==> BackdropOutcome(s).next.hasSeenOnboarding && BackdropOutcome(s).next.modal.None?
    ensures s.hasSeenOnboarding ==> ShowOnboardingState(s) == s
  {
  }

  /** After the sync read the onboarding timer is scheduled exactly when the
      user has not seen the onboarding (or one was already pending) and the
      script is enabled or was already pending; the configuration in force is
      the merged one. */
  lemma SyncLoadedSchedules(s: ScriptState, sync: SyncSettings, cat: Catalogue)
    ensures var t := SyncLoadedState(s, sync, cat);
            && t.config == Some(MergeSync(sync, cat))
            && (t.hasSeenOnboarding <==> sync.hasSeenOnboarding == Some(true))
            && (t.timerPending <==> (sync.hasSeenOnboarding != Some(true) && !s.disabled) || s.timerPending)
            && (sync.preset == "" && sync.rules.None? ==> t.debugMode == s.debugMode)
  {
  }

  // ---------------------------------------------------------------------------
  // The script
  // ---------------------------------------------------------------------------

  /** The content script on one page. `cat` and `dataTypes` are the preset
      catalogue and the data-type table it reads. */
  class ContentScriptState {
    const cat: Catalogue
    const dataTypes: DataTypes
    var disabled: bool
    var timerPending: bool
    var shadowAttached: bool
    var modal: Option<ModalView>
    var pendingText: Option<string>
    var pendingMatches: Option<seq<Match>>
    var pendingTarget: Element?
    var lastFocused: Element?
    var pasteAttached: bool
    var storageAttached: bool
    var config: Option<LocalConfig>
    var debugMode: bool
    var hasSeenOnboarding: bool

    function State(): ScriptState
      reads this
    {
      ScriptState(disabled, timerPending, shadowAttached, modal, pendingText, pendingMatches,
                  pendingTarget, lastFocused, pasteAttached, storageAttached, config, debugMode,
                  hasSeenOnboarding)
    }

    /** The script's start on a page: the storage listener is registered when
        the runtime is available, and the paste handler only on an AI
        domain. */
    constructor (hostname: string, runtimeAvailable: bool, cat: Catalogue, dataTypes: DataTypes)
      ensures State() == Initial(hostname, runtimeAvailable)
      ensures this.cat == cat && this.dataTypes == dataTypes
    {
      this.cat := cat;
      this.dataTypes := dataTypes;
      disabled := false;
      timerPending := false;
      shadowAttached := false;
      modal := None;
      pendingText := None;
      pendingMatches := None;
      pendingTarget := null;
      lastFocused := null;
      config := None;
      debugMode := false;
      hasSeenOnboarding := false;
      storageAttached := runtimeAvailable;
      pasteAttached := IsAiDomain(hostname, Some(AiDomains));
    }

    /** `teardown`. */
    method TearDown()
      modifies this
      ensures State() == TearDownState(old(State()))
    {
      ghost var s0 := State();
      timerPending := false;
      shadowAttached := false;
      modal := None;
      pendingText := None;
      pendingMatches := None;
      pendingTarget := null;
      lastFocused := null;
      if pasteAttached {
        pasteAttached := false;
      }
      storageAttached := false;
      assert State() == TearDownState(s0);
    }

    /** `handleContextInvalidation`. */
    method HandleContextInvalidation()
      modifies this
      ensures State() == Invalidate(old(State()))
    {
      if disabled {
        return;
      }
      disabled := true;
      TearDown();
    }

    /** The `error` and `unhandledrejection` listeners. */
    method OnContextError(message: Option<string>) returns (prevented: bool)
      modifies this
      ensures State() == Step(old(State()), ContextError(message), cat, dataTypes).next
      ensures prevented == Step(old(State()), ContextError(message), cat, dataTypes).prevented
    {
      StepOnContextError(State(), message, cat, dataTypes);
      prevented := false;
      if IsExtensionContextError(message) {
        prevented := true;
        HandleContextInvalidation();
      }
    }

    /** `clearModal`. */
    method ClearModal()
      modifies this
      ensures State() == ClearModalState(old(State()))
    {
      modal := None;
      pendingText := None;
      pendingMatches := None;
      pendingTarget := null;
    }

    /** `closeModalSafely`: returns the element focus goes back to. */
    method CloseModalSafely() returns (refocus: Element?)
      modifies this
      ensures State() == CloseModal(old(State()))
      ensures refocus == old(lastFocused)
    {
      ClearModal();
      refocus := lastFocused;
      lastFocused := null;
    }

    /** `showModal`. */
    method ShowModal(matches: seq<Match>, action: Action, text: string, target: Element?, active: Element?)
      modifies this
      ensures State() == ShowModalState(old(State()), matches, action == Block, text, target, active, dataTypes)
    {
      if disabled {
        return;
      }
      ghost var s0 := State();
      var view := Detection(action == Block, Chips(TypesOf(matches), dataTypes));
      ShowModalFields(s0, matches, action == Block, text, target, active, dataTypes);
      // `clearModal` runs first; every field it resets is set again below.
      shadowAttached, lastFocused := true, active;
      pendingText, pendingMatches, pendingTarget := Some(text), Some(matches), target;
      modal := Some(view);
      assert State() == s0.(shadowAttached := true, lastFocused := active, pendingText := Some(text),
                            pendingMatches := Some(matches), pendingTarget := target, modal := Some(view));
    }

    /** `handlePaste`: `start` is the focused element (or the event target),
        `root` the document element and `chain` the parent chain from
        `start`. */
    method HandlePaste(start: Element?, root: Element?, ghost chain: seq<Element>, active: Element?,
                       text: string, matches: seq<Match>) returns (prevented: bool)
      requires AncestorChain(start, chain)
      modifies this
      ensures var o := Step(old(State()), Paste(FirstPromptField(chain, root), active, text, matches), cat, dataTypes);
              State() == o.next && prevented == o.prevented
    {
      prevented := false;
      if !pasteAttached || disabled {
        return;
      }
      var target := FindEditableAncestor(start, root, chain);
      if target == null || text == "" || |matches| == 0 {
        return;
      }
      var d := DetermineAction(Distinct(TypesOf(matches)), config, cat);
      if d.action == Allow {
        return;
      }
      prevented := true;
      ShowModal(matches, d.action, text, target, active);
    }

    /** The local-storage callback of `loadConfig`. */
    method OnLocalLoaded(stored: Option<LocalConfig>)
      modifies this
      ensures State() == Step(old(State()), LocalLoaded(stored), cat, dataTypes).next
    {
      if stored.Some? {
        config := stored;
        debugMode := stored.value.debugMode;
      }
    }

    /** The sync-storage callback of `loadConfig`. */
    method OnSyncLoaded(sync: SyncSettings)
      modifies this
      ensures State() == SyncLoadedState(old(State()), sync, cat)
    {
      hasSeenOnboarding := sync.hasSeenOnboarding == Some(true);
      if sync.preset != "" || sync.rules.Some? {
        config := Some(MergeSync(sync, cat));
        debugMode := config.value.debugMode;
      } else {
        config := Some(LocalConfig("personal", Some(cat.personalRules), true, true, false));
      }
      if !hasSeenOnboarding && !disabled {
        timerPending := true;
      }
    }

    /** The storage-change listener. */
    method OnStorageChanged(area: string, hasSeenChange: Option<bool>)
      modifies this
      ensures State() == Step(old(State()), StorageChanged(area, hasSeenChange), cat, dataTypes).next
    {
      if !storageAttached || disabled {
        return;
      }
      if area == "sync" && hasSeenChange.Some? {
        hasSeenOnboarding := hasSeenChange.value;
      }
    }

    /** `showOnboarding`. */
    method ShowOnboarding()
      modifies this
      ensures State() == ShowOnboardingState(old(State()))
    {
      if hasSeenOnboarding || disabled {
        return;
      }
      shadowAttached := true;
      ClearModal();
      modal := Some(Onboarding);
    }

    /** The onboarding timer going off. */
    method OnOnboardingTimer()
      modifies this
      ensures State() == Step(old(State()), OnboardingTimerFired, cat, dataTypes).next
    {
      if timerPending {
        timerPending := false;
        ShowOnboarding();
      }
    }

    /** Writes `insertion` into its field; only text fields are modelled. */
    static method Insert(insertion: Option<Insertion>)
      modifies if insertion.Some? then {insertion.value.target} else {}
      ensures insertion.Some? && IsTextControl(insertion.value.target) ==>
                var t := insertion.value.target;
                t.value == SplicedValue(old(t.value), old(t.selectionStart), old(t.selectionEnd), insertion.value.text)
                && t.selectionStart == t.selectionEnd == old(t.selectionStart) + |insertion.value.text|
    {
      if insertion.Some? && IsTextControl(insertion.value.target) {
        InsertIntoTextControl(insertion.value.target, insertion.value.text);
      }
    }

    /** A click on a modal button carrying `data-action` `action`. */
    method OnButtonClick(action: string) returns (insertion: Option<Insertion>, refocus: Element?)
      modifies this, pendingTarget
      ensures var o := ButtonOutcome(old(State()), action, dataTypes);
              State() == o.next && insertion == o.insertion && refocus == o.refocus
      ensures insertion.Some? && IsTextControl(insertion.value.target) ==>
                var t := insertion.value.target;
                t.value == SplicedValue(old(t.value), old(t.selectionStart), old(t.selectionEnd), insertion.value.text)
    {
      insertion := None;
      refocus := null;
      if modal.None? {
        return;
      }
      if modal.value.Onboarding? {
        if action == "dismiss" || action == "settings" {
          hasSeenOnboarding := true;
          refocus := CloseModalSafely();
        }
        return;
      }
      var block := modal.value.block;
      if action == "anonymize" || (action == "allow" && !block) {
        insertion := PendingInsertion(State(), action == "anonymize", dataTypes);
        Insert(insertion);
        refocus := CloseModalSafely();
      } else if (action == "cancel" && block) || (action == "close" && !block) {
        refocus := CloseModalSafely();
      }
    }

    /** A click on the backdrop. */
    method OnBackdropClick() returns (refocus: Element?)
      modifies this
      ensures State() == BackdropOutcome(old(State())).next && refocus == BackdropOutcome(old(State())).refocus
    {
      refocus := null;
      if modal == Some(Onboarding) {
        hasSeenOnboarding := true;
        refocus := CloseModalSafely();
      } else if modal.Some? && !modal.value.block {
        refocus := CloseModalSafely();
      }
    }

    /** A key pressed inside the modal. */
    method OnKeydown(key: string) returns (refocus: Element?)
      modifies this
      ensures State() == KeydownOutcome(old(State()), key).next && refocus == KeydownOutcome(old(State()), key).refocus
    {
      refocus := null;
      if modal.Some? && modal.value.Detection? && key == "Escape" && !modal.value.block {
        refocus := CloseModalSafely();
      }
    }
  }
}
