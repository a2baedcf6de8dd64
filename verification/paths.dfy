/**
 * Path construction: getPath joins segments after normalizeDashes gives each
 * one a leading slash and drops one trailing slash.
 */
module Paths {

  /** PLUGIN_FOLDER: the plugin's directory under the app's files directory. */
  const PluginFolder := "cordova-plugin-splashscreen"

  /** SPLASH_NAME: the file the downloaded splash image is stored in. */
  const SplashName := "splash.png"

  predicate StartsWithSlash(s: string) { |s| > 0 && s[0] == '/' }
  predicate EndsWithSlash(s: string) { |s| > 0 && s[|s| - 1] == '/' }

  /** The segment with a leading slash, added only when it has none. */
  function WithLeadingSlash(path: string): string {
    if StartsWithSlash(path) then path else "/" + path
  }

  /** normalizeDashes: ensures a leading slash, then drops one trailing slash if there is one. */
  function NormalizeDashes(path: string): string {
    var p := WithLeadingSlash(path);
    if EndsWithSlash(p) then p[..|p| - 1] else p
  }

  /**
   * A normalized segment is the segment with a leading slash and at most one
   * trailing slash removed; only "" and "/" normalize to nothing, and anything
   * else is absolute.
   */
  lemma NormalizeDashesShape(path: string)
    ensures var r := NormalizeDashes(path);
      && (WithLeadingSlash(path) == r || WithLeadingSlash(path) == r + "/")
      && (WithLeadingSlash(path) == r + "/" <==> EndsWithSlash(WithLeadingSlash(path)))
      && (r == "" <==> path == "" || path == "/")
      && (r != "" ==> StartsWithSlash(r))
  {
    var p := WithLeadingSlash(path);
    assert NormalizeDashes(path) == if EndsWithSlash(p) then p[..|p| - 1] else p;
    if EndsWithSlash(p) {
      assert p == p[..|p| - 1] + "/";
    }
  }

  /** The segments are exactly the fixed points: empty, or a leading slash and no trailing one. */
  lemma NormalizeDashesFixedPoint(path: string)
    ensures NormalizeDashes(path) == path <==> path == "" || (StartsWithSlash(path) && !EndsWithSlash(path))
  {
  }

  /** The path getPath builds: the normalized segments, in order, concatenated. */
  function JoinPaths(paths: seq<string>): string
    decreases |paths|
  {
    if paths == [] then "" else NormalizeDashes(paths[0]) + JoinPaths(paths[1..])
  }

  /** Joining distributes over concatenation of the segment lists. */
  lemma {:induction false} JoinPathsAppend(a: seq<string>, b: seq<string>)
    ensures JoinPaths(a + b) == JoinPaths(a) + JoinPaths(b)
    decreases |a|
  {
    if a == [] {
      assert a + b == b;
    } else {
      assert (a + b)[1..] == a[1..] + b;
      JoinPathsAppend(a[1..], b);
    }
  }

  /** A non-empty joined path is absolute. */
  lemma {:induction false} JoinPathsAbsolute(paths: seq<string>)
    ensures JoinPaths(paths) != "" ==> StartsWithSlash(JoinPaths(paths))
    decreases |paths|
  {
    if paths != [] {
      NormalizeDashesShape(paths[0]);
      JoinPathsAbsolute(paths[1..]);
    }
  }

  /** getPath: appends the normalized segments to a builder, first to last. */
  method GetPath(paths: seq<string>) returns (r: string)
    ensures r == JoinPaths(paths)
    ensures paths == [] ==> r == ""
    ensures r != "" ==> StartsWithSlash(r)
  {
    r := "";
    var i := 0;
    while i < |paths|
      invariant 0 <= i <= |paths|
      invariant r == JoinPaths(paths[..i])
    {
      assert paths[..i + 1] == paths[..i] + [paths[i]];
      JoinPathsAppend(paths[..i], [paths[i]]);
      r := r + NormalizeDashes(paths[i]);
      i := i + 1;
    }
    assert paths[..|paths|] == paths;
    JoinPathsAbsolute(paths);
  }

  /**
   * The path the startup reads the splash image from, getPath(files,
   * PLUGIN_FOLDER, SPLASH_NAME), is the path the refresh writes it to: the
   * plugin folder getPath(files, PLUGIN_FOLDER) and the child SPLASH_NAME.
   */
  lemma SplashImagePathsAgree(filesDir: string)
    ensures JoinPaths([filesDir, PluginFolder, SplashName]) == JoinPaths([filesDir, PluginFolder]) + "/" + SplashName
    ensures !EndsWithSlash(JoinPaths([filesDir, PluginFolder]))
  {
    var folder := JoinPaths([filesDir, PluginFolder]);
    assert NormalizeDashes(PluginFolder) == "/" + PluginFolder;
    assert NormalizeDashes(SplashName) == "/" + SplashName;
    assert JoinPaths([PluginFolder]) == NormalizeDashes(PluginFolder) by {
      assert [PluginFolder][1..] == [];
    }
    assert JoinPaths([SplashName]) == NormalizeDashes(SplashName) by {
      assert [SplashName][1..] == [];
    }
    assert [filesDir, PluginFolder][1..] == [PluginFolder];
    assert folder == NormalizeDashes(filesDir) + "/" + PluginFolder;
    assert [filesDir, PluginFolder] + [SplashName] == [filesDir, PluginFolder, SplashName];
    JoinPathsAppend([filesDir, PluginFolder], [SplashName]);
    assert folder[|folder| - 1] == PluginFolder[|PluginFolder| - 1];
  }
}
