/**
 * The plugin's entry points: pluginInitialize, execute, onMessage, onPause
 * and onDestroy, over the overlay state, the preferences and the
 * instance's choice of image. Runs of events keep the overlay valid.
 */
module Plugin {
  import opened Wrappers
  import opened JavaInt
  import opened Prefs
  import opened Overlay

  /** What the host answers at start-up. */
  datatype Host = Host(
    drawableInActivityPackage: string -> Int32,  // resource id of a drawable in the activity class's package, 0 if none
    drawableInAppPackage: string -> Int32,       // resource id of a drawable in the application package, 0 if none
    splashFileExists: bool                       // a downloaded splash image is stored
  )

  /** One plugin instance together with the process-wide overlay state. */
  datatype Plugin = Plugin(
    overlay: State,
    prefs: Preferences,
    downloadedImage: bool,  // the instance loaded the downloaded image to display
    webViewVisible: bool
  )

  /** The instance pluginInitialize leaves, and the manifest URL of the refresh it starts, if any. */
  datatype Started = Started(plugin: Plugin, refreshUrl: Option<string>)

  /** The drawable id pluginInitialize looks up: the activity's package first, then the application's. */
  function LookUpDrawable(host: Host, resource: string): (id: Int32)
    ensures host.drawableInActivityPackage(resource) != 0 ==> id == host.drawableInActivityPackage(resource)
    ensures host.drawableInActivityPackage(resource) == 0 ==> id == host.drawableInAppPackage(resource)
    ensures id == 0 <==> host.drawableInActivityPackage(resource) == 0 && host.drawableInAppPackage(resource) == 0
  {
    var id := host.drawableInActivityPackage(resource);
    if id == 0 then host.drawableInAppPackage(resource) else id
  }

  /**
   * pluginInitialize. With no drawable id set yet and a manifest URL
   * configured, it starts the refresh, picks the downloaded image if one is
   * stored, and resolves and stores the drawable id. Then it shows the splash
   * (auto-hiding as configured) if this is a first show, and clears the
   * first-show flag if the splash is to show only once. The web view starts
   * hidden.
   */
  function Initialize(statics: State, prefs: Preferences, host: Host): (r: Started)
    ensures r.refreshUrl == (if DrawableId(prefs) == 0 then prefs.contentUrl else None)
    ensures r.refreshUrl.None? ==> r.plugin.prefs == prefs && !r.plugin.downloadedImage
    ensures r.refreshUrl.Some? ==>
      && r.plugin.prefs == prefs.(splashDrawableId := Some(LookUpDrawable(host, SplashResource(prefs))))
      && r.plugin.downloadedImage == host.splashFileExists
    ensures r.plugin.overlay.firstShow == (statics.firstShow && !ShowOnlyFirstTime(prefs))
    ensures statics.firstShow ==> r.plugin.overlay.lastHideAfterDelay == AutoHide(prefs)
    ensures statics.firstShow ==>
      r.plugin.overlay == Show(statics, r.plugin.prefs, r.plugin.downloadedImage, AutoHide(prefs)).(firstShow := r.plugin.overlay.firstShow)
    ensures statics.firstShow && statics.dialog.None? && !ShowRefused(r.plugin.prefs, AutoHide(prefs)) ==>
      r.plugin.overlay.dialog == Some(ImageFor(r.plugin.prefs, r.plugin.downloadedImage))
    ensures statics.firstShow && (statics.dialog.Some? || ShowRefused(r.plugin.prefs, AutoHide(prefs))) ==>
      r.plugin.overlay.dialog == statics.dialog
    ensures !statics.firstShow ==> r.plugin.overlay == statics.(firstShow := r.plugin.overlay.firstShow)
    ensures !r.plugin.webViewVisible
    ensures Valid(statics) ==> Valid(r.plugin.overlay)
  {
    var refreshUrl := if DrawableId(prefs) == 0 then prefs.contentUrl else None;
    var prefs' := if refreshUrl.Some? then
        prefs.(splashDrawableId := Some(LookUpDrawable(host, SplashResource(prefs))))
      else prefs;
    var downloaded := refreshUrl.Some? && host.splashFileExists;
    var shown := if statics.firstShow then Show(statics, prefs', downloaded, AutoHide(prefs')) else statics;
    var overlay := if ShowOnlyFirstTime(prefs') then shown.(firstShow := false) else shown;
    Started(Plugin(overlay, prefs', downloaded, false), refreshUrl)
  }

  /**
   * Without a drawable id set in advance and without a manifest URL, no
   * drawable is resolved, so the splash never shows.
   */
  lemma NoContentUrlNoSplash(statics: State, prefs: Preferences, host: Host)
    requires DrawableId(prefs) == 0 && prefs.contentUrl.None? && statics.dialog.None?
    ensures Initialize(statics, prefs, host).plugin.overlay.dialog.None?
    ensures Initialize(statics, prefs, host).refreshUrl.None?
  {
  }

  /**
   * The first start with a manifest URL, a resolvable drawable and a stored
   * downloaded image shows the downloaded image.
   */
  lemma FirstStartShowsDownloadedImage(prefs: Preferences, host: Host)
    requires DrawableId(prefs) == 0 && prefs.contentUrl.Some?
    requires LookUpDrawable(host, SplashResource(prefs)) != 0 && host.splashFileExists
    requires !(SplashDelay(prefs) <= 0 && AutoHide(prefs))
    ensures Initialize(Initial, prefs, host).plugin.overlay.dialog == Some(Downloaded)
  {
  }

  /**
   * onMessage: "splashscreen" hides on "hide" and otherwise shows without
   * auto-hide; "spinner" with "stop" makes the web view visible;
   * "onReceivedError" stops the spinner; any other message changes nothing.
   */
  function OnMessage(p: Plugin, id: string, data: string): (q: Plugin)
    ensures id == "splashscreen" && data == "hide" ==> q == p.(overlay := Remove(p.overlay, p.prefs, false))
    ensures id == "splashscreen" && data != "hide" ==>
      q == p.(overlay := Show(p.overlay, p.prefs, p.downloadedImage, false))
    ensures id == "spinner" ==> q == p.(webViewVisible := p.webViewVisible || data == "stop")
    ensures id == "onReceivedError" ==> q == p.(overlay := p.overlay.(spinnerShowing := false))
    ensures id !in {"splashscreen", "spinner", "onReceivedError"} ==> q == p
    ensures q.prefs == p.prefs && q.downloadedImage == p.downloadedImage
    ensures Valid(p.overlay) ==> Valid(q.overlay)
  {
    if id == "splashscreen" then
      if data == "hide" then p.(overlay := Remove(p.overlay, p.prefs, false))
      else p.(overlay := Show(p.overlay, p.prefs, p.downloadedImage, false))
    else if id == "spinner" then
      if data == "stop" then p.(webViewVisible := true) else p
    else if id == "onReceivedError" then p.(overlay := SpinnerStop(p.overlay))
    else p
  }

  /** The answer of execute and the instance after it. */
  datatype Executed = Executed(handled: bool, plugin: Plugin)

  /**
   * execute: "hide" and "show" post the matching splashscreen message
   * (delivered at once) and report success; any other action is refused and
   * changes nothing.
   */
  function Execute(p: Plugin, action: string): (r: Executed)
    ensures r.handled <==> action == "hide" || action == "show"
    ensures !r.handled ==> r.plugin == p
    ensures r.handled ==> r.plugin == OnMessage(p, "splashscreen", action)
  {
    if action == "hide" || action == "show" then Executed(true, OnMessage(p, "splashscreen", action))
    else Executed(false, p)
  }

  /** Something that can happen to a started plugin. */
  datatype Event =
    | ExecuteAction(action: string)
    | Message(id: string, data: string)
    | Pause            // onPause
    | Destroy          // onDestroy
    | AutoHideRuns     // a posted auto-hide callback runs
    | FadeFinishes     // the fade-out animation ends

  function Step(p: Plugin, e: Event): (q: Plugin)
    ensures (e.Pause? || e.Destroy?) ==> q == p.(overlay := Remove(p.overlay, p.prefs, true))
    ensures (e.Pause? || e.Destroy?) ==> q.overlay.dialog.None? && (Valid(p.overlay) ==> !q.overlay.spinnerShowing)
    ensures q.overlay.firstShow == p.overlay.firstShow
    ensures q.prefs == p.prefs
  {
    match e
    case ExecuteAction(a) => Execute(p, a).plugin
    case Message(id, data) => OnMessage(p, id, data)
    case Pause => p.(overlay := Remove(p.overlay, p.prefs, true))
    case Destroy => p.(overlay := Remove(p.overlay, p.prefs, true))
    case AutoHideRuns => p.(overlay := AutoHideFires(p.overlay, p.prefs))
    case FadeFinishes => p.(overlay := FadeEnd(p.overlay))
  }

  function Run(p: Plugin, events: seq<Event>): Plugin
    decreases |events|
  {
    if events == [] then p else Run(Step(p, events[0]), events[1..])
  }

  /** Every step keeps the overlay valid. */
  lemma StepPreservesValid(p: Plugin, e: Event)
    requires Valid(p.overlay)
    ensures Valid(Step(p, e).overlay)
  {
  }

  /** Any run of events from a valid overlay ends in a valid overlay. */
  lemma {:induction false} RunPreservesValid(p: Plugin, events: seq<Event>)
    requires Valid(p.overlay)
    ensures Valid(Run(p, events).overlay)
    decreases |events|
  {
    if events != [] {
      StepPreservesValid(p, events[0]);
      RunPreservesValid(Step(p, events[0]), events[1..]);
    }
  }

  /** Every reachable overlay is valid: from the process start, through pluginInitialize, through any events. */
  lemma ReachableValid(prefs: Preferences, host: Host, events: seq<Event>)
    ensures Valid(Run(Initialize(Initial, prefs, host).plugin, events).overlay)
  {
    RunPreservesValid(Initialize(Initial, prefs, host).plugin, events);
  }

  /** No event sets or clears the first-show flag; onDestroy in particular keeps it. */
  lemma {:induction false} RunKeepsFirstShow(p: Plugin, events: seq<Event>)
    ensures Run(p, events).overlay.firstShow == p.overlay.firstShow
    decreases |events|
  {
    if events != [] {
      RunKeepsFirstShow(Step(p, events[0]), events[1..]);
    }
  }

  /**
   * With "show only the first time" in force, a later start (a new instance
   * over the same process-wide state, after any events) shows nothing,
   * whatever it is configured with.
   */
  lemma ShowsOnlyOnce(prefs: Preferences, host: Host, events: seq<Event>, prefs2: Preferences, host2: Host)
    requires ShowOnlyFirstTime(prefs)
    requires Run(Initialize(Initial, prefs, host).plugin, events).overlay.dialog.None?
    ensures Initialize(Run(Initialize(Initial, prefs, host).plugin, events).overlay, prefs2, host2).plugin.overlay.dialog.None?
  {
    RunKeepsFirstShow(Initialize(Initial, prefs, host).plugin, events);
  }
}
