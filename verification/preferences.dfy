/**
 * The host preferences the plugin reads, each with the default the plugin
 * passes when the key is absent, and the two durations derived from them.
 */
module Prefs {
  import opened Wrappers
  import opened JavaInt

  /** DEFAULT_SPLASHSCREEN_DURATION, in milliseconds. */
  const DefaultSplashScreenDuration: Int32 := 3000

  /** A configured fade duration below this is read as seconds rather than milliseconds. */
  const SecondsThreshold: Int32 := 30

  /** Preference values as stored; `None` is a key the host does not define. */
  datatype Preferences = Preferences(
    splashDrawableId: Option<Int32>,   // "SplashDrawableId"
    contentUrl: Option<string>,        // "SplashScreenContentUrl"
    splashResource: Option<string>,    // "SplashScreen"
    autoHide: Option<bool>,            // "AutoHideSplashScreen"
    showOnlyFirstTime: Option<bool>,   // "SplashShowOnlyFirstTime"
    splashDelay: Option<Int32>,        // "SplashScreenDelay"
    fadeEnabled: Option<bool>,         // "FadeSplashScreen"
    fadeDuration: Option<Int32>,       // "FadeSplashScreenDuration"
    showSpinner: Option<bool>          // "ShowSplashScreenSpinner"
  )

  /** A host that defines none of the keys. */
  const NoPreferences := Preferences(None, None, None, None, None, None, None, None, None)

  function DrawableId(p: Preferences): Int32 { p.splashDrawableId.GetOr(0) }
  function SplashResource(p: Preferences): string { p.splashResource.GetOr("screen") }
  function AutoHide(p: Preferences): bool { p.autoHide.GetOr(true) }
  function ShowOnlyFirstTime(p: Preferences): bool { p.showOnlyFirstTime.GetOr(true) }
  function SplashDelay(p: Preferences): Int32 { p.splashDelay.GetOr(DefaultSplashScreenDuration) }
  function FadeEnabled(p: Preferences): bool { p.fadeEnabled.GetOr(true) }
  function ConfiguredFade(p: Preferences): Int32 { p.fadeDuration.GetOr(DefaultSplashScreenDuration) }
  function ShowSpinner(p: Preferences): bool { p.showSpinner.GetOr(true) }

  /**
   * getFadeDuration: the fade-out length in milliseconds. Disabled fading is
   * 0; a value below 30 is taken to be in seconds and scaled (with Java's
   * 32-bit wrap-around); anything else is already milliseconds.
   */
  function FadeDuration(p: Preferences): (r: Int32)
    ensures !FadeEnabled(p) ==> r == 0
    ensures FadeEnabled(p) && ConfiguredFade(p) >= SecondsThreshold ==> r == ConfiguredFade(p)
    ensures FadeEnabled(p) && ConfiguredFade(p) < SecondsThreshold ==> r == Wrap(ConfiguredFade(p) * 1000)
    ensures FadeEnabled(p) && ConfiguredFade(p) < SecondsThreshold && InRange(ConfiguredFade(p) * 1000) ==> r == ConfiguredFade(p) * 1000
    ensures ConfiguredFade(p) * 1000 >= MinInt ==> (r > 0 <==> FadeEnabled(p) && ConfiguredFade(p) > 0)
  {
    var configured := if FadeEnabled(p) then ConfiguredFade(p) else 0;
    if configured < SecondsThreshold then Wrap(configured * 1000) else configured
  }

  /**
   * The delay before the automatic hide starts: the splash delay minus the
   * fade, so that the fade ends when the configured delay has elapsed, and
   * never negative.
   */
  function EffectiveSplashDuration(p: Preferences): (r: Int32)
    ensures r >= 0
    ensures InRange(SplashDelay(p) - FadeDuration(p)) && SplashDelay(p) - FadeDuration(p) >= 0 ==>
      r == SplashDelay(p) - FadeDuration(p)
    ensures InRange(SplashDelay(p) - FadeDuration(p)) && SplashDelay(p) <= FadeDuration(p) ==> r == 0
  {
    Max(0, Wrap(SplashDelay(p) - FadeDuration(p)))
  }

  /** With no preferences set, fading lasts the default 3000 ms and the automatic hide starts at once. */
  lemma DefaultDurations()
    ensures FadeDuration(NoPreferences) == 3000
    ensures EffectiveSplashDuration(NoPreferences) == 0
  {
  }
}
