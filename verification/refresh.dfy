/**
 * The splash-asset refresh: read the density URL out of a manifest, compare a
 * fetched manifest with the cached one, and decide which of the two stored
 * files (the cached manifest and the splash image) the refresh overwrites.
 * Fetching, parsing and image download are inputs: the fetched text (none
 * when the download failed), a parse function (none when the text is not
 * JSON) and a download function (none when no bitmap results).
 */
module Refresh {
  import opened Wrappers
  import opened JsonTree
  import opened Density

  /** A decoded image. Its contents are not interpreted by the model. */
  datatype Bitmap = Bitmap(pixels: seq<int>)

  /** The lookup getDensityUrl performs: `contents[0].params[densityName]`. */
  function UrlPath(densityName: string): seq<Step> {
    [Key("contents"), Index(0), Key("params"), Key(densityName)]
  }

  /**
   * getDensityUrl: the text of `contents[0].params[densityName]`, or none
   * when any step of the lookup is missing.
   */
  function GetDensityUrl(json: Json, densityName: string): Option<string> {
    match Field(json, "contents")
    case None => None
    case Some(contents) =>
      match Element(contents, 0)
      case None => None
      case Some(content) =>
        match Field(content, "params")
        case None => None
        case Some(params) =>
          match Field(params, densityName)
          case None => None
          case Some(node) => Some(AsText(node))
  }

  /**
   * getDensityUrl is exactly a lookup along `contents[0].params[densityName]`:
   * it yields the text found there, and none exactly when some step is missing.
   */
  lemma GetDensityUrlFollowsPath(json: Json, densityName: string)
    ensures GetDensityUrl(json, densityName) == TextAt(json, UrlPath(densityName))
  {
    var path := UrlPath(densityName);
    var p1, p2, p3 := path[1..], path[2..], path[3..];
    assert p1 == [Index(0), Key("params"), Key(densityName)] && p1[1..] == p2;
    assert p2 == [Key("params"), Key(densityName)] && p2[1..] == p3;
    assert p3 == [Key(densityName)] && p3[1..] == [];
    match Field(json, "contents")
    case None =>
    case Some(contents) =>
      assert Navigate(json, path) == Navigate(contents, p1);
      match Element(contents, 0)
      case None =>
      case Some(content) =>
        assert Navigate(contents, p1) == Navigate(content, p2);
        match Field(content, "params")
        case None =>
        case Some(params) =>
          assert Navigate(content, p2) == Navigate(params, p3);
          assert Navigate(params, p3) ==
            (match Field(params, densityName) case None => None case Some(n) => Some(n));
  }

  /** The smallest manifest naming `urls` by density: `{"contents": [{"params": urls}]}`. */
  function ManifestOf(urls: map<string, string>): Json {
    JObject(map["contents" := JArray([JObject(map["params" := JObject(map k | k in urls :: JString(urls[k]))])])])
  }

  /** Reading a URL back out of a manifest built from a URL table gives the table's entry. */
  lemma ManifestRoundTrip(urls: map<string, string>, densityName: string)
    ensures GetDensityUrl(ManifestOf(urls), densityName) ==
      (if densityName in urls then Some(urls[densityName]) else None)
  {
  }

  /** Only the first entry of `contents` is consulted; later entries never matter. */
  lemma OnlyFirstContentConsulted(first: Json, rest: seq<Json>, densityName: string)
    ensures GetDensityUrl(JObject(map["contents" := JArray([first] + rest)]), densityName) ==
      GetDensityUrl(JObject(map["contents" := JArray([first])]), densityName)
  {
  }

  /**
   * diffSplashFile: the image changed when the cached manifest names a URL for
   * the density and the new manifest does not name that same URL. A cached
   * manifest without a URL never counts as changed.
   */
  function DiffSplashFile(newJson: Json, oldJson: Json, densityName: string): (changed: bool)
    ensures GetDensityUrl(newJson, densityName) == GetDensityUrl(oldJson, densityName) ==> !changed
    ensures GetDensityUrl(oldJson, densityName).None? ==> !changed
    ensures GetDensityUrl(oldJson, densityName).Some? && GetDensityUrl(newJson, densityName).None? ==> changed
    ensures GetDensityUrl(oldJson, densityName).Some? && GetDensityUrl(newJson, densityName).Some? ==>
      (changed <==> GetDensityUrl(newJson, densityName) != GetDensityUrl(oldJson, densityName))
  {
    var newUrl := GetDensityUrl(newJson, densityName);
    var oldUrl := GetDensityUrl(oldJson, densityName);
    oldUrl.Some? && oldUrl != newUrl
  }

  /** The two files the refresh may overwrite; `None` is a file that does not exist. */
  datatype Store = Store(manifest: Option<string>, image: Option<Bitmap>)

  /** What one refresh writes: the manifest text and the image, each when written. */
  datatype Writes = Writes(manifest: Option<string>, image: Option<Bitmap>)

  const NoWrites := Writes(None, None)

  /** The cached manifest as the refresh sees it. A read failure is the same as a missing file. */
  datatype Cached = Missing | Unparseable | Parsed(json: Json)

  function ReadCache(file: Option<string>, parse: string -> Option<Json>): (c: Cached)
    ensures c.Missing? <==> file.None?
    ensures c.Unparseable? <==> file.Some? && parse(file.value).None?
    ensures c.Parsed? ==> file.Some? && parse(file.value) == Some(c.json)
  {
    match file
    case None => Missing
    case Some(text) =>
      match parse(text)
      case None => Unparseable
      case Some(j) => Parsed(j)
  }

  /**
   * The refresh flag: true unless a cached manifest parsed, in which case it
   * is the result of diffSplashFile.
   */
  function ShouldReplace(newJson: Json, cached: Cached, density: Bucket): (flag: bool)
    ensures !cached.Parsed? ==> flag
    ensures cached.Parsed? ==>
      (flag <==> GetDensityUrl(cached.json, density.Name()).Some? &&
                 GetDensityUrl(cached.json, density.Name()) != GetDensityUrl(newJson, density.Name()))
  {
    match cached
    case Parsed(previous) => DiffSplashFile(newJson, previous, density.Name())
    case _ => true
  }

  /**
   * The body of runThread, as the writes it performs. A failed fetch or an
   * unparseable manifest writes nothing. Otherwise, when the flag is set, the
   * fetched text is saved as the manifest, and the image is saved when the
   * new manifest names a URL for the density and downloading it yields a
   * bitmap.
   */
  function RefreshWrites(fetched: Option<string>, cachedFile: Option<string>, density: Bucket,
                         parse: string -> Option<Json>, download: string -> Option<Bitmap>): (w: Writes)
    ensures fetched.None? ==> w == NoWrites
    ensures fetched.Some? && parse(fetched.value).None? ==> w == NoWrites
    ensures w.manifest.Some? ==> w.manifest == fetched && parse(fetched.value).Some?
    ensures fetched.Some? && parse(fetched.value).Some? ==>
      (w.manifest.Some? <==> ShouldReplace(parse(fetched.value).value, ReadCache(cachedFile, parse), density))
    ensures w.image.Some? ==> w.manifest.Some?
    ensures w.manifest.Some? ==>
      var url := GetDensityUrl(parse(fetched.value).value, density.Name());
      w.image == (if url.None? then None else download(url.value))
  {
    match fetched
    case None => NoWrites
    case Some(text) =>
      match parse(text)
      case None => NoWrites
      case Some(json) =>
        if !ShouldReplace(json, ReadCache(cachedFile, parse), density) then NoWrites
        else
          var imgUrl := GetDensityUrl(json, density.Name());
          var bitmap := if imgUrl.None? then None else download(imgUrl.value);
          Writes(Some(text), bitmap)
  }

  /** Overwrites each file that was written; the others keep their contents. */
  function Apply(store: Store, w: Writes): (s: Store)
    ensures w.manifest.Some? ==> s.manifest == w.manifest
    ensures w.manifest.None? ==> s.manifest == store.manifest
    ensures w.image.Some? ==> s.image == w.image
    ensures w.image.None? ==> s.image == store.image
  {
    Store(if w.manifest.Some? then w.manifest else store.manifest,
          if w.image.Some? then w.image else store.image)
  }

  /** One refresh against the stored files. */
  function RunRefresh(store: Store, fetched: Option<string>, density: Bucket,
                      parse: string -> Option<Json>, download: string -> Option<Bitmap>): Store {
    Apply(store, RefreshWrites(fetched, store.manifest, density, parse, download))
  }

  /** A failed fetch leaves both stored files as they were. */
  lemma FailedFetchKeepsStore(store: Store, density: Bucket,
                              parse: string -> Option<Json>, download: string -> Option<Bitmap>)
    ensures RunRefresh(store, None, density, parse, download) == store
  {
  }

  /** A cached manifest that does not parse is treated exactly like a missing one. */
  lemma MalformedCacheIsMissing(fetched: Option<string>, bad: string, density: Bucket,
                                parse: string -> Option<Json>, download: string -> Option<Bitmap>)
    requires parse(bad).None?
    ensures RefreshWrites(fetched, Some(bad), density, parse, download) ==
            RefreshWrites(fetched, None, density, parse, download)
  {
  }

  /**
   * Without a usable cached manifest the fetched manifest is always saved,
   * and so is the image when the manifest names one that downloads.
   */
  lemma FirstRunRefreshes(text: string, cachedFile: Option<string>, density: Bucket,
                          parse: string -> Option<Json>, download: string -> Option<Bitmap>)
    requires parse(text).Some?
    requires !ReadCache(cachedFile, parse).Parsed?
    ensures RefreshWrites(Some(text), cachedFile, density, parse, download).manifest == Some(text)
    ensures var url := GetDensityUrl(parse(text).value, density.Name());
      url.Some? && download(url.value).Some? ==>
      RefreshWrites(Some(text), cachedFile, density, parse, download).image == download(url.value)
  {
  }

  /** A cached URL that differs from the fetched one replaces both files. */
  lemma ChangedUrlReplacesBoth(text: string, cachedText: string, density: Bucket,
                               parse: string -> Option<Json>, download: string -> Option<Bitmap>)
    requires parse(text).Some? && parse(cachedText).Some?
    requires GetDensityUrl(parse(cachedText).value, density.Name()).Some?
    requires GetDensityUrl(parse(text).value, density.Name()).Some?
    requires GetDensityUrl(parse(text).value, density.Name()) != GetDensityUrl(parse(cachedText).value, density.Name())
    ensures RefreshWrites(Some(text), Some(cachedText), density, parse, download) ==
      Writes(Some(text), download(GetDensityUrl(parse(text).value, density.Name()).value))
  {
  }

  /** The same URL in the cached and fetched manifests writes nothing. */
  lemma SameUrlWritesNothing(fetched: Option<string>, cachedText: string, density: Bucket,
                             parse: string -> Option<Json>, download: string -> Option<Bitmap>)
    requires fetched.Some? && parse(fetched.value).Some? && parse(cachedText).Some?
    requires GetDensityUrl(parse(fetched.value).value, density.Name()) ==
             GetDensityUrl(parse(cachedText).value, density.Name())
    ensures RefreshWrites(fetched, Some(cachedText), density, parse, download) == NoWrites
  {
  }

  /**
   * The manifest can be saved without the image: when the download yields no
   * bitmap, the new manifest is cached while the old image stays.
   */
  lemma ManifestWithoutImage(store: Store, text: string, density: Bucket,
                             parse: string -> Option<Json>, download: string -> Option<Bitmap>)
    requires parse(text).Some? && store.manifest.None?
    requires forall u :: download(u).None?
    ensures RunRefresh(store, Some(text), density, parse, download) == Store(Some(text), store.image)
  {
  }

  /**
   * Refreshing twice in a row against the same remote manifest writes nothing
   * the second time, whatever the first one did.
   */
  lemma RefreshIdempotent(store: Store, fetched: Option<string>, density: Bucket,
                              parse: string -> Option<Json>, download: string -> Option<Bitmap>)
    ensures var after := RunRefresh(store, fetched, density, parse, download);
      RefreshWrites(fetched, after.manifest, density, parse, download) == NoWrites
  {
  }

  /**
   * The end-to-end first run: no cached manifest and a remote manifest
   * `{"contents":[{"params":{"xhdpi":"http://x/new.png"}}]}` on an xhdpi
   * display saves the manifest and the downloaded image.
   */
  lemma FirstRunExample(text: string, image: Bitmap,
                        parse: string -> Option<Json>, download: string -> Option<Bitmap>)
    requires parse(text) == Some(ManifestOf(map["xhdpi" := "http://x/new.png"]))
    requires download("http://x/new.png") == Some(image)
    ensures RunRefresh(Store(None, None), Some(text), DensityName(2.0), parse, download) ==
      Store(Some(text), Some(image))
  {
  }
}
