/**
 * The splash overlay: the process-wide splash dialog and spinner dialog, the
 * "first show" flag and the flag that tells a delayed auto-hide whether it
 * is still wanted. UI-thread hops are taken as synchronous; a fade-out is a
 * start step and an end step; a posted auto-hide callback is counted until
 * it runs.
 */
module Overlay {
  import opened Wrappers
  import opened Prefs

  /** What the splash dialog displays: the downloaded image or a bundled drawable resource. */
  datatype Image = Downloaded | Bundled(drawableId: int)

  datatype State = State(
    dialog: Option<Image>,     // the splash dialog, when one is showing
    fading: bool,              // a fade-out animation is running on the dialog
    spinnerShowing: bool,      // the spinner dialog is showing
    firstShow: bool,           // the splash has not yet been shown on a "first time only" start
    lastHideAfterDelay: bool,  // the argument of the most recent show request
    pendingAutoHides: nat      // auto-hide callbacks posted and not yet run
  )

  /** The static fields as the process starts. */
  const Initial := State(None, false, false, true, false, 0)

  /** A fade runs only on a showing dialog, and the spinner shows only over a dialog that is not fading. */
  predicate Valid(s: State) {
    && (s.fading ==> s.dialog.Some?)
    && (s.spinnerShowing ==> s.dialog.Some? && !s.fading)
  }

  /** spinnerStop: dismisses the spinner if it is showing. */
  function SpinnerStop(s: State): (t: State)
    ensures !t.spinnerShowing
    ensures t.(spinnerShowing := s.spinnerShowing) == s
  {
    s.(spinnerShowing := false)
  }

  /** spinnerStart: replaces any spinner with a new, showing one. */
  function SpinnerStart(s: State): (t: State)
    ensures t.spinnerShowing
    ensures t.(spinnerShowing := s.spinnerShowing) == s
  {
    SpinnerStop(s).(spinnerShowing := true)
  }

  /** Dismisses the splash dialog; a fade running on it ends with it. */
  function Dismiss(s: State): State {
    s.(dialog := None, fading := false)
  }

  /** The image a new dialog displays. */
  function ImageFor(prefs: Preferences, downloaded: bool): Image {
    if downloaded then Downloaded else Bundled(DrawableId(prefs))
  }

  /** The guard of showSplashScreen that refuses to create a dialog whatever is showing. */
  predicate ShowRefused(prefs: Preferences, hideAfterDelay: bool) {
    DrawableId(prefs) == 0 || (SplashDelay(prefs) <= 0 && hideAfterDelay)
  }

  /**
   * showSplashScreen: always records `hideAfterDelay`; creates no dialog if
   * one is showing or the guard refuses; otherwise shows the dialog, starts
   * the spinner if configured, and posts an auto-hide when asked to.
   */
  function Show(s: State, prefs: Preferences, downloaded: bool, hideAfterDelay: bool): (t: State)
    ensures t.lastHideAfterDelay == hideAfterDelay
    ensures t.firstShow == s.firstShow
    ensures s.dialog.Some? || ShowRefused(prefs, hideAfterDelay) ==> t == s.(lastHideAfterDelay := hideAfterDelay)
    ensures t.dialog.Some? <==> s.dialog.Some? || !ShowRefused(prefs, hideAfterDelay)
    ensures s.dialog.None? && t.dialog.Some? ==>
      && t.dialog == Some(ImageFor(prefs, downloaded))
      && !t.fading
      && t.pendingAutoHides == s.pendingAutoHides + (if hideAfterDelay then 1 else 0)
    ensures Valid(s) && s.dialog.None? && t.dialog.Some? ==> t.spinnerShowing == ShowSpinner(prefs)
    ensures Valid(s) ==> Valid(t)
  {
    var recorded := s.(lastHideAfterDelay := hideAfterDelay);
    if s.dialog.Some? then recorded
    else if ShowRefused(prefs, hideAfterDelay) then recorded
    else
      var shown := recorded.(dialog := Some(ImageFor(prefs, downloaded)), fading := false);
      var spun := if ShowSpinner(prefs) then SpinnerStart(shown) else shown;
      if hideAfterDelay then spun.(pendingAutoHides := spun.pendingAutoHides + 1) else spun
  }

  /**
   * removeSplashScreen: nothing unless a dialog is showing. Forced, or with no
   * fade, it stops the spinner and dismisses at once; otherwise it starts the
   * fade, whose start stops the spinner while the dialog stays up.
   */
  function Remove(s: State, prefs: Preferences, force: bool): (t: State)
    ensures s.dialog.None? ==> t == s
    ensures s.dialog.Some? && (force || FadeDuration(prefs) <= 0) ==>
      t.dialog.None? && !t.spinnerShowing && !t.fading
    ensures s.dialog.Some? && !force && FadeDuration(prefs) > 0 ==>
      t.dialog == s.dialog && t.fading && !t.spinnerShowing
    ensures t.firstShow == s.firstShow && t.lastHideAfterDelay == s.lastHideAfterDelay
    ensures t.pendingAutoHides == s.pendingAutoHides
    ensures Valid(s) ==> Valid(t)
  {
    if s.dialog.None? then s
    else if FadeDuration(prefs) > 0 && !force then SpinnerStop(s.(fading := true))
    else Dismiss(SpinnerStop(s))
  }

  /** The end of a fade-out: the dialog, still showing, is dismissed. */
  function FadeEnd(s: State): (t: State)
    ensures !s.fading ==> t == s
    ensures s.fading ==> t == s.(dialog := None, fading := false)
    ensures Valid(s) ==> Valid(t)
  {
    if s.fading then Dismiss(s) else s
  }

  /**
   * A posted auto-hide runs: it hides (without forcing) only if the most
   * recent show request still asked for hiding after the delay.
   */
  function AutoHideFires(s: State, prefs: Preferences): (t: State)
    ensures s.pendingAutoHides == 0 ==> t == s
    ensures s.pendingAutoHides > 0 ==> t.pendingAutoHides == s.pendingAutoHides - 1
    ensures s.pendingAutoHides > 0 && !s.lastHideAfterDelay ==>
      t == s.(pendingAutoHides := s.pendingAutoHides - 1)
    ensures s.pendingAutoHides > 0 && s.lastHideAfterDelay ==>
      t == Remove(s.(pendingAutoHides := s.pendingAutoHides - 1), prefs, false)
    ensures Valid(s) ==> Valid(t)
  {
    if s.pendingAutoHides == 0 then s
    else
      var ran := s.(pendingAutoHides := s.pendingAutoHides - 1);
      if s.lastHideAfterDelay then Remove(ran, prefs, false) else ran
  }

  /**
   * A hide that fades completes at the end of the fade: afterwards neither
   * the dialog nor the spinner is showing.
   */
  lemma HideThenFadeEndClears(s: State, prefs: Preferences)
    requires Valid(s)
    ensures var t := Remove(s, prefs, false);
      var u := if t.fading then FadeEnd(t) else t;
      u.dialog.None? && !u.spinnerShowing && !u.fading
  {
  }

  /**
   * A show request without auto-hide made after one with it disarms the
   * pending auto-hide: when that callback runs, the dialog stays.
   */
  lemma LaterShowDisarmsAutoHide(s: State, prefs: Preferences, downloaded: bool)
    requires Valid(s)
    ensures var armed := Show(s, prefs, downloaded, true);
      var disarmed := Show(armed, prefs, downloaded, false);
      var fired := AutoHideFires(disarmed, prefs);
      fired.dialog == disarmed.dialog && fired.spinnerShowing == disarmed.spinnerShowing
  {
  }
}
