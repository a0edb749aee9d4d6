/**
  The per-session state and the transitions one script rerun applies to it:
  the reminder poll, the background settings, the preference form, and the
  three buttons of the main form (scripture background, clear, seek guidance).
  Every outside effect (clock, image fetch, file read, the generative model)
  arrives as an input value.
 */
module Session {
  import opened Wrappers
  import opened Text
  import opened FaithCatalog
  import Resolver
  import Reminder
  import Notifications
  import opened Journal

  /** `current_bg_type`: which kind of background was last applied. */
  datatype BackgroundType = DefaultBackground | CustomBackground | FaithBackground

  /** The text stored in `current_bg_type` and shown in the footer for each background type. */
  function TypeName(t: BackgroundType): string
  {
    match t
    case DefaultBackground => "default"
    case CustomBackground => "custom"
    case FaithBackground => "faith"
  }

  /** The footer text tells the three background types apart. */
  lemma TypeNameInjective(a: BackgroundType, b: BackgroundType)
    ensures TypeName(a) == TypeName(b) <==> a == b
  {
  }

  /** `user_preferences`. */
  datatype Preferences = Preferences(faith: string, favoritePath: GuidancePath)

  /** Everything the script keeps in `st.session_state` that the core uses. */
  datatype SessionState = SessionState(
    journal: seq<Entry>,
    prefs: Preferences,
    reminderTriggered: bool,
    notifications: nat,
    customBackgroundPath: Option<string>,
    backgroundType: BackgroundType)

  /** The state a new session starts with. */
  const Initial: SessionState :=
    SessionState([], Preferences("", FindHelp), false, 0, None, DefaultBackground)

  /** One call of `show_notification`. */
  function Notify(s: SessionState, kind: Notifications.Kind): (s': SessionState)
    ensures s'.notifications == s.notifications + 1
    ensures s'.(notifications := s.notifications) == s
  {
    s.(notifications := Notifications.Notify(s.notifications, kind))
  }

  // ---------------------------------------------------------------------------
  // Reminder poll
  // ---------------------------------------------------------------------------

  /** `check_and_show_reminder` against the session's latch; returns whether the reminder showed. */
  function PollReminder(s: SessionState, hour: int): (r: (bool, SessionState))
    ensures r.0 <==> Reminder.Scheduled(hour) && !s.reminderTriggered
    ensures r.1.reminderTriggered <==> Reminder.Scheduled(hour)
    ensures r.1.(reminderTriggered := s.reminderTriggered) == s
  {
    var p := Reminder.Check(hour, s.reminderTriggered);
    (p.fired, s.(reminderTriggered := p.triggered))
  }

  // ---------------------------------------------------------------------------
  // Background settings sidebar
  // ---------------------------------------------------------------------------

  /**
    The option picked in the background radio group, with the widget values of
    that option and the outcome of the outside step it triggers: whether the
    image URL answered 200, whether the file could be read, whether the path exists.
   */
  datatype BackgroundChoice =
    | DefaultDark
    | ScriptureTheme(faithKey: string, applyClicked: bool, fetchOk: bool)
    | UploadImage(fileName: Option<string>, loadOk: bool)
    | LocalFilePath(path: string, loadClicked: bool, fileExists: bool, loadOk: bool)

  /** The upload is saved under this name before it is loaded. */
  function UploadPath(fileName: string): (p: string)
    ensures |p| == |fileName| + 8 && p[..8] == "temp_bg_" && p[8..] == fileName
  {
    "temp_bg_" + fileName
  }

  /** Different upload names are saved under different paths. */
  lemma UploadPathInjective(a: string, b: string)
    ensures UploadPath(a) == UploadPath(b) <==> a == b
  {
    if UploadPath(a) == UploadPath(b) {
      assert a == UploadPath(a)[8..];
    }
  }

  /** The choice applied a background (for the default option, the plain dark one). */
  predicate Applies(c: BackgroundChoice)
  {
    match c
    case DefaultDark => true
    case ScriptureTheme(_, clicked, ok) => clicked && ok
    case UploadImage(name, ok) => name.Some? && ok
    case LocalFilePath(path, clicked, found, ok) => path != "" && clicked && found && ok
  }

  /** The background type a successful choice switches to. */
  function TargetType(c: BackgroundChoice): BackgroundType
  {
    match c
    case DefaultDark => DefaultBackground
    case ScriptureTheme(_, _, _) => FaithBackground
    case UploadImage(_, _) => CustomBackground
    case LocalFilePath(_, _, _, _) => CustomBackground
  }

  /** The choice shows a notification: on every apply attempt of a scripture theme, and on a successful file load. */
  predicate NotifiesOn(c: BackgroundChoice)
  {
    match c
    case DefaultDark => false
    case ScriptureTheme(_, clicked, _) => clicked
    case UploadImage(name, ok) => name.Some? && ok
    case LocalFilePath(path, clicked, found, ok) => path != "" && clicked && found && ok
  }

  /** `show_background_settings`. A scripture theme is picked from the catalog's keys. */
  function BackgroundSettings(s: SessionState, c: BackgroundChoice): (s': SessionState)
    requires c.ScriptureTheme? ==> IsKey(c.faithKey)
    ensures s'.backgroundType == (if Applies(c) then TargetType(c) else s.backgroundType)
    ensures s'.notifications == s.notifications + (if NotifiesOn(c) then 1 else 0)
    ensures s'.journal == s.journal && s'.reminderTriggered == s.reminderTriggered
    ensures s'.prefs.favoritePath == s.prefs.favoritePath
    ensures s'.prefs.faith == (if c.ScriptureTheme? && Applies(c) then c.faithKey else s.prefs.faith)
    ensures c.DefaultDark? ==> s'.customBackgroundPath == None
    ensures c.ScriptureTheme? ==> s'.customBackgroundPath == s.customBackgroundPath
    ensures c.UploadImage? && c.fileName.Some? ==>
      s'.customBackgroundPath == (if c.loadOk then Some(UploadPath(c.fileName.value)) else None)
    ensures c.LocalFilePath? && c.path != "" && c.loadClicked ==>
      s'.customBackgroundPath == (if c.fileExists then Some(c.path) else None)
    ensures !Applies(c) && !(c.LocalFilePath? && c.path != "" && c.loadClicked) && !(c.UploadImage? && c.fileName.Some?) ==>
      s'.customBackgroundPath == s.customBackgroundPath
  {
    match c
    case ScriptureTheme(key, clicked, ok) =>
      if !clicked then s
      else if ok then
        Notify(s.(backgroundType := FaithBackground), Notifications.Success)
          .(prefs := s.prefs.(faith := key))
      else Notify(s, Notifications.Error)
    case UploadImage(name, ok) =>
      if name.None? then s
      else
        var s1 := s.(customBackgroundPath := Some(UploadPath(name.value)));
        if ok then Notify(s1.(backgroundType := CustomBackground), Notifications.Success)
        else s1.(customBackgroundPath := None)
    case LocalFilePath(path, clicked, found, ok) =>
      if path == "" || !clicked then s
      else if found then
        var s1 := s.(customBackgroundPath := Some(path));
        if ok then Notify(s1.(backgroundType := CustomBackground), Notifications.Success) else s1
      else s.(customBackgroundPath := None)
    case DefaultDark =>
      s.(customBackgroundPath := None, backgroundType := DefaultBackground)
  }

  /** A failed load of an existing local file keeps its path but leaves the background type as it was. */
  lemma FailedLocalLoadKeepsPath(s: SessionState, path: string)
    requires path != ""
    ensures var s' := BackgroundSettings(s, LocalFilePath(path, true, true, false));
      s'.customBackgroundPath == Some(path) && s'.backgroundType == s.backgroundType
  {
  }

  /**
    The background type and the custom path are kept independently: after a
    local file has been applied, a failed upload clears the path while the type
    stays "custom".
   */
  lemma CustomTypeWithoutPath(s: SessionState, local: string, upload: string)
    requires local != ""
    ensures var s1 := BackgroundSettings(s, LocalFilePath(local, true, true, true));
      var s2 := BackgroundSettings(s1, UploadImage(Some(upload), false));
      s2.backgroundType == CustomBackground && s2.customBackgroundPath == None
  {
  }

  // ---------------------------------------------------------------------------
  // Preferences sidebar
  // ---------------------------------------------------------------------------

  /**
    `show_preferences`: the sidebar text box and select box overwrite both
    preferences on every rerun; a ticked "remember" box shows a notification.
   */
  function ShowPreferences(s: SessionState, faith: string, path: GuidancePath, remember: bool): (s': SessionState)
    ensures s'.prefs == Preferences(faith, path)
    ensures s'.notifications == s.notifications + (if remember then 1 else 0)
    ensures s'.(prefs := s.prefs, notifications := s.notifications) == s
  {
    var s1 := s.(prefs := Preferences(faith, path));
    if remember then Notify(s1, Notifications.Info) else s1
  }

  // ---------------------------------------------------------------------------
  // Main form
  // ---------------------------------------------------------------------------

  /** The main form's widgets: faith text, chosen path, concern text and the "remember my faith" box. */
  datatype Form = Form(faith: string, path: GuidancePath, trouble: string, rememberFaith: bool)

  /** What happened on the "Scripture BG" button. */
  datatype AutoOutcome = NotRun | Applied(faith: string) | FetchFailed(faith: string) | ListFaiths(available: seq<string>)

  /**
    The "Scripture BG" button: a non-empty faith text is resolved against the
    catalog; a resolved theme is applied if its image can be fetched; with no
    match, the available faiths are listed and nothing changes.
   */
  function AutoBackground(s: SessionState, faith: string, fetchOk: bool): (r: (AutoOutcome, SessionState))
    ensures faith == "" ==> r == (NotRun, s)
    ensures faith != "" && Resolver.Resolve(faith).None? ==> r == (ListFaiths(Keys()), s)
    ensures faith != "" && Resolver.Resolve(faith).Some? ==>
      var t := Resolver.Resolve(faith).value;
      if fetchOk then
        r.0 == Applied(t.name) && r.1.backgroundType == FaithBackground &&
        r.1.notifications == s.notifications + 1 && r.1.(backgroundType := s.backgroundType, notifications := s.notifications) == s
      else r == (FetchFailed(t.name), s)
  {
    if faith == "" then (NotRun, s)
    else
      match Resolver.Resolve(faith)
      case None => (ListFaiths(Keys()), s)
      case Some(t) =>
        if fetchOk then (Applied(t.name), Notify(s.(backgroundType := FaithBackground), Notifications.Success))
        else (FetchFailed(t.name), s)
  }

  /** How the script run ended: it reached its end, or an exception stopped it where it was raised. */
  datatype Ending = Finished | Raised

  /** The keys of the main form's widgets, all created before any of its buttons is handled. */
  const MainFormKeys: set<string> :=
    {"faith_input", "path_input", "trouble_input", "seek_btn", "auto_bg_btn", "clear_btn"}

  /**
    Streamlit lets a run assign the session-state value of a widget key only
    while no widget with that key has been created in the run; otherwise the
    assignment raises `StreamlitAPIException`.
   */
  predicate MayAssignWidget(created: set<string>, key: string)
  {
    key !in created
  }

  /**
    The "Clear" button as the script has it: its first statement assigns the
    `faith_input` widget's value after that widget was created, so the run
    stops there. The state is left as it was: the form is not emptied and the
    "Form cleared!" notification never shows.
   */
  function ClearFormAsWritten(s: SessionState): (r: (Ending, SessionState))
    ensures r.0 == Raised <==> !MayAssignWidget(MainFormKeys, "faith_input")
    ensures r.0 == Raised ==> r.1 == s
  {
    if !MayAssignWidget(MainFormKeys, "faith_input") then (Raised, s)
    else (Finished, Notify(s, Notifications.Info))
  }

  /**
    The "Clear" button as intended: the form's widgets are emptied (they are
    not part of the modelled state) and one notification shows; nothing else changes.
   */
  function ClearForm(s: SessionState): (s': SessionState)
    ensures s'.notifications == s.notifications + 1
    ensures s'.(notifications := s.notifications) == s
  {
    Notify(s, Notifications.Info)
  }

  /** For every state the written button raises and shows nothing, while the intended one notifies once. */
  lemma ClearFormAsWrittenRaises(s: SessionState)
    ensures ClearFormAsWritten(s).0 == Raised
    ensures ClearFormAsWritten(s).1.notifications + 1 == ClearForm(s).notifications
    ensures ClearFormAsWritten(s).1 != ClearForm(s)
  {
    assert "faith_input" in MainFormKeys;
  }

  /** What the generative model gave back: its text, or an error raised anywhere in the call. */
  datatype Reply = Generated(text: string) | ProviderError(message: string)

  /** Both text fields of the form are filled in (Python truthiness of a string). */
  predicate Complete(f: Form)
  {
    f.faith != "" && f.trouble != ""
  }

  /**
    The "Seek Guidance" button. An incomplete form only warns. A complete form
    first stores the faith preference if asked, then calls the model; on a
    reply, one entry is appended to the journal; on an error, nothing is
    recorded. Exactly one notification shows either way.
   */
  function SeekGuidance(s: SessionState, f: Form, reply: Reply, timestamp: string): (s': SessionState)
    ensures s'.notifications == s.notifications + 1
    ensures |s'.journal| == |s.journal| + (if Complete(f) && reply.Generated? then 1 else 0)
    ensures s'.journal[..|s.journal|] == s.journal
    ensures Complete(f) && reply.Generated? ==>
      s'.journal[|s.journal|] == Entry(f.faith, f.path, f.trouble, reply.text, timestamp)
    ensures s'.prefs.faith == (if Complete(f) && f.rememberFaith then f.faith else s.prefs.faith)
    ensures s'.prefs.favoritePath == s.prefs.favoritePath
    ensures s'.backgroundType == s.backgroundType && s'.customBackgroundPath == s.customBackgroundPath
    ensures s'.reminderTriggered == s.reminderTriggered
  {
    if !Complete(f) then Notify(s, Notifications.Warning)
    else
      var s1 := if f.rememberFaith then s.(prefs := s.prefs.(faith := f.faith)) else s;
      match reply
      case Generated(text) =>
        Notify(s1.(journal := s1.journal + [Entry(f.faith, f.path, f.trouble, text, timestamp)]), Notifications.Success)
      case ProviderError(_) =>
        Notify(s1, Notifications.Error)
  }

  // ---------------------------------------------------------------------------
  // One rerun of the script
  // ---------------------------------------------------------------------------

  /** The main-form button pressed on this rerun, if any. */
  datatype Action = NoAction | PressScriptureBg | PressClear | PressSeekGuidance

  /** Everything one rerun reads from outside: the clock, the widgets and the outside call results. */
  datatype Rerun = Rerun(
    hour: int,
    background: BackgroundChoice,
    prefsFaith: string,
    prefsPath: GuidancePath,
    rememberPrefs: bool,
    form: Form,
    action: Action,
    autoFetchOk: bool,
    reply: Reply,
    timestamp: string)

  /** The option's own sidebar button ("Apply Scripture Background" or "Load Local Image") was pressed. */
  predicate SidebarButtonPressed(c: BackgroundChoice)
  {
    (c.ScriptureTheme? && c.applyClicked) || (c.LocalFilePath? && c.loadClicked)
  }

  /**
    Inputs the script can actually produce: a scripture theme is one of the
    catalog's keys, and since each button press starts its own rerun, a
    sidebar button and a main-form button are never both pressed in one.
   */
  predicate WellFormed(r: Rerun)
  {
    && (r.background.ScriptureTheme? ==> IsKey(r.background.faithKey))
    && (SidebarButtonPressed(r.background) ==> r.action == NoAction)
  }

  /** The notification the pressed main-form button shows, if any. */
  function ActionNotifications(r: Rerun): nat
  {
    match r.action
    case NoAction => 0
    case PressScriptureBg =>
      if r.form.faith != "" && Resolver.Resolve(r.form.faith).Some? && r.autoFetchOk then 1 else 0
    case PressClear => 1
    case PressSeekGuidance => 1
  }

  /** The part of `main` before the main form's buttons: reminder poll, background sidebar, preference sidebar. */
  function Sidebars(s: SessionState, r: Rerun): SessionState
    requires WellFormed(r)
  {
    ShowPreferences(BackgroundSettings(PollReminder(s, r.hour).1, r.background), r.prefsFaith, r.prefsPath, r.rememberPrefs)
  }

  /**
    `main`, in source order: reminder, sidebar, then the pressed button. The
    "Clear" button is taken as intended (see `ClearFormAsWritten`).
   */
  function Step(s: SessionState, r: Rerun): (s': SessionState)
    requires WellFormed(r)
    ensures s'.reminderTriggered <==> Reminder.Scheduled(r.hour)
    ensures s'.prefs.favoritePath == r.prefsPath
    ensures s'.prefs.faith ==
      (if r.action == PressSeekGuidance && Complete(r.form) && r.form.rememberFaith then r.form.faith else r.prefsFaith)
    ensures s'.notifications ==
      s.notifications + (if NotifiesOn(r.background) then 1 else 0) + (if r.rememberPrefs then 1 else 0) + ActionNotifications(r)
  {
    var s3 := Sidebars(s, r);
    match r.action
    case NoAction => s3
    case PressScriptureBg => AutoBackground(s3, r.form.faith, r.autoFetchOk).1
    case PressClear => ClearForm(s3)
    case PressSeekGuidance => SeekGuidance(s3, r.form, r.reply, r.timestamp)
  }

  /**
    On a "Clear" press the rerun follows the intended button: the script as
    written raises after the reminder and both sidebars have run, leaving their
    state, which shows one notification fewer.
   */
  lemma StepClearAgainstWritten(s: SessionState, r: Rerun)
    requires WellFormed(r) && r.action == PressClear
    ensures Step(s, r) == ClearForm(Sidebars(s, r))
    ensures ClearFormAsWritten(Sidebars(s, r)) == (Raised, Sidebars(s, r))
    ensures Step(s, r).notifications == ClearFormAsWritten(Sidebars(s, r)).1.notifications + 1
  {
    ClearFormAsWrittenRaises(Sidebars(s, r));
  }

  /** The rerun records a new exchange. */
  predicate Records(r: Rerun)
  {
    r.action == PressSeekGuidance && Complete(r.form) && r.reply.Generated?
  }

  /**
    One rerun keeps every stored exchange in place and adds at most one, which
    happens exactly when guidance was sought with a complete form and the model
    replied; the notification count never goes down.
   */
  lemma StepAppendOnly(s: SessionState, r: Rerun)
    requires WellFormed(r)
    ensures var s' := Step(s, r);
      && |s'.journal| == |s.journal| + (if Records(r) then 1 else 0)
      && s'.journal[..|s.journal|] == s.journal
      && s'.notifications >= s.notifications
  {
    assert Sidebars(s, r).journal == s.journal;
  }

  /** The state after the reruns `rs`, in order. */
  function Run(s: SessionState, rs: seq<Rerun>): SessionState
    requires forall i :: 0 <= i < |rs| ==> WellFormed(rs[i])
    decreases |rs|
  {
    if rs == [] then s else Run(Step(s, rs[0]), rs[1..])
  }

  /** Number of reruns in `rs` that record an exchange. */
  function CountRecords(rs: seq<Rerun>): (n: nat)
    ensures n <= |rs|
    decreases |rs|
  {
    if rs == [] then 0 else (if Records(rs[0]) then 1 else 0) + CountRecords(rs[1..])
  }

  /**
    Over any run of the session, the journal only ever grows at its end, by
    exactly one entry per successful guidance request, and the notification
    count never decreases.
   */
  lemma {:induction false} RunAppendOnly(s: SessionState, rs: seq<Rerun>)
    requires forall i :: 0 <= i < |rs| ==> WellFormed(rs[i])
    ensures |Run(s, rs).journal| == |s.journal| + CountRecords(rs)
    ensures Run(s, rs).journal[..|s.journal|] == s.journal
    ensures Run(s, rs).notifications >= s.notifications
    decreases |rs|
  {
    if rs != [] {
      var s1 := Step(s, rs[0]);
      StepAppendOnly(s, rs[0]);
      RunAppendOnly(s1, rs[1..]);
      assert Run(s1, rs[1..]).journal[..|s.journal|] == Run(s1, rs[1..]).journal[..|s1.journal|][..|s.journal|];
    }
  }

  /**
    A new session starts with an empty journal, so after any run of reruns it
    holds exactly one entry per successful guidance request, and the footer's
    query count equals that number.
   */
  lemma RunFromInitial(rs: seq<Rerun>)
    requires forall i :: 0 <= i < |rs| ==> WellFormed(rs[i])
    ensures |Run(Initial, rs).journal| == CountRecords(rs)
    ensures Initial.backgroundType == DefaultBackground && TypeName(Initial.backgroundType) == "default"
  {
    RunAppendOnly(Initial, rs);
  }

  /**
    The background type changes only when a background is applied: through the
    sidebar choice (the default option always applies) or the "Scripture BG" button.
   */
  lemma BackgroundChangesOnlyOnApply(s: SessionState, r: Rerun)
    requires WellFormed(r)
    ensures Step(s, r).backgroundType != s.backgroundType ==>
      (Applies(r.background) && Step(s, r).backgroundType == TargetType(r.background)) ||
      (r.action == PressScriptureBg && r.autoFetchOk && Step(s, r).backgroundType == FaithBackground)
  {
  }

  // ---------------------------------------------------------------------------
  // Scenarios
  // ---------------------------------------------------------------------------

  /** A Buddhist seeking purpose gets guidance: one entry appended with their words and the reply, one notification. */
  lemma SuccessfulRequestScenario(s: SessionState, t: string, ts: string)
    ensures var f := Form("Buddhism", SeekPurpose, "I feel lost", true);
      var s' := SeekGuidance(s, f, Generated(t), ts);
      && s'.journal == s.journal + [Entry("Buddhism", SeekPurpose, "I feel lost", t, ts)]
      && s'.notifications == s.notifications + 1
      && s'.prefs.faith == "Buddhism"
  {
  }

  /** A failing model call records nothing; the faith preference was already saved before the call. */
  lemma FailedRequestScenario(s: SessionState, err: string, ts: string)
    ensures var f := Form("Buddhism", SeekPurpose, "I feel lost", true);
      var s' := SeekGuidance(s, f, ProviderError(err), ts);
      && s'.journal == s.journal
      && s'.notifications == s.notifications + 1
      && s'.prefs.faith == "Buddhism"
  {
  }

  /** An empty concern only warns: the journal and preferences stay as they were. */
  lemma IncompleteRequestScenario(s: SessionState, faith: string, reply: Reply, ts: string)
    ensures var s' := SeekGuidance(s, Form(faith, FindHelp, "", true), reply, ts);
      s'.journal == s.journal && s'.prefs == s.prefs && s'.notifications == s.notifications + 1
  {
  }

  /** Typing "hindu" and pressing "Scripture BG" applies the Hinduism theme when its image loads. */
  lemma AutoBackgroundHindu(s: SessionState)
    ensures AutoBackground(s, "hindu", true).0 == Applied("Hinduism")
    ensures AutoBackground(s, "hindu", true).1.backgroundType == FaithBackground
  {
    Resolver.ResolveHindu();
  }

  /** Typing "xyz" lists the nine faiths and changes nothing. */
  lemma AutoBackgroundNoMatch(s: SessionState, fetchOk: bool)
    ensures AutoBackground(s, "xyz", fetchOk) == (ListFaiths(Keys()), s)
  {
    Resolver.ResolveNoMatch();
  }
}
