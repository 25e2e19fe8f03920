/**
 * The Android shell's activity (MainActivity): it loads the bundled manifest.json
 * once, derives the theme, the requested orientation and the title from it, and
 * installs the scope guard on the web view before loading start_url.
 *
 * The platform setters (setTheme, setRequestedOrientation, setTitle, loadUrl) are
 * modelled by the decisions they are given, returned as values.
 */
module PwaActivity {
  import opened Common
  import ScopeGuard

  // ---------------------------------------------------------------------------
  // Presentation decisions

  /** The values `optString` yields for the five manifest keys the activity reads. */
  datatype Manifest = Manifest(name: string, display: string, orientation: string, startUrl: string, scope: string)

  datatype Theme = AppTheme | FullscreenTheme

  /** The ActivityInfo.SCREEN_ORIENTATION_* constants the activity can request. */
  datatype ScreenOrientation =
    | Unspecified
    | Landscape
    | Portrait
    | SensorLandscape
    | SensorPortrait
    | ReverseLandscape
    | ReversePortrait

  /** setDisplay: the fullscreen theme for display `fullscreen`, the app theme for
      every other value. */
  function DisplayTheme(display: string): (theme: Theme)
    ensures theme == FullscreenTheme <==> display == "fullscreen"
  {
    if display == "fullscreen" then FullscreenTheme else AppTheme
  }

  /** setName: the title to set, or None to leave the default title untouched. */
  function WindowTitle(name: string): (title: Option<string>)
    ensures title.Some? <==> name != ""
    ensures title.Some? ==> title.value == name
  {
    if name != "" then Some(name) else None
  }

  /** setOrientation: an exact, case-sensitive switch over the manifest tokens; `any`,
      `natural` and every other string request UNSPECIFIED. */
  function RequestedOrientation(token: string): (o: ScreenOrientation)
    ensures o == Unspecified || OrientationToken(o) == Some(token)
  {
    if token == "landscape-primary" then Landscape
    else if token == "portrait-primary" then Portrait
    else if token == "landscape" then SensorLandscape
    else if token == "portrait" then SensorPortrait
    else if token == "landscape-secondary" then ReverseLandscape
    else if token == "portrait-secondary" then ReversePortrait
    else Unspecified
  }

  /** The manifest token that requests an orientation (Web App Manifest naming). */
  function OrientationToken(o: ScreenOrientation): (token: Option<string>)
    ensures token.None? <==> o == Unspecified
  {
    match o
    case Unspecified => None
    case Landscape => Some("landscape-primary")
    case Portrait => Some("portrait-primary")
    case SensorLandscape => Some("landscape")
    case SensorPortrait => Some("portrait")
    case ReverseLandscape => Some("landscape-secondary")
    case ReversePortrait => Some("portrait-secondary")
  }

  /** Every orientation other than UNSPECIFIED is requested by its token. */
  lemma TokenRequestsItsOrientation(o: ScreenOrientation)
    requires o != Unspecified
    ensures RequestedOrientation(OrientationToken(o).value) == o
  {
  }

  /** A token outside the six cases (among them `any`, `natural`, the empty string
      and `Landscape`) requests UNSPECIFIED, and only those do. */
  lemma UnlistedTokensAreUnspecified(token: string)
    ensures RequestedOrientation(token) == Unspecified <==> forall o :: OrientationToken(o) != Some(token)
  {
    if RequestedOrientation(token) == Unspecified {
      forall o ensures OrientationToken(o) != Some(token) {
        if o != Unspecified {
          TokenRequestsItsOrientation(o);
        }
      }
    }
  }

  // ---------------------------------------------------------------------------
  // Loading the manifest

  const ManifestFile: string := "manifest.json"

  /** The outcome of reading manifest.json through an InputStream: an IOException
      (from open, available, read or close), or the count `read` returned together
      with the buffer of `available()` bytes it read into. */
  datatype ManifestRead = ReadFailed | ReadDone(readBytes: int, buffer: seq<bv8>)

  /** What the AssetManager does: the root listing (None when `list` throws an
      IOException) and how reading manifest.json turns out. */
  datatype Assets = Assets(listing: Option<seq<string>>, manifestRead: ManifestRead)

  /** UTF-8 decoding followed by `new JSONObject(...)`; None is a JSONException. */
  type JsonParser = seq<bv8> -> Option<Manifest>

  /** assetExists: whether the root listing names the asset; false (never an
      exception) when listing fails. */
  function AssetExists(listing: Option<seq<string>>, asset: string): (present: bool)
    ensures present <==> listing.Some? && asset in listing.value
  {
    match listing
    case None => false
    case Some(names) => asset in names
  }

  /** loadLocalManifest either returns (possibly null) or lets a JSONException out. */
  datatype LocalLoad = Returned(manifest: Option<Manifest>) | ThrewJsonException

  /** loadLocalManifest: null after an IOException or when no byte was read; otherwise
      the parse of the buffer, whose failure propagates. */
  function LoadLocalManifest(read: ManifestRead, parseJson: JsonParser): (r: LocalLoad)
    ensures read.ReadFailed? ==> r == Returned(None)
    ensures read.ReadDone? && read.readBytes <= 0 ==> r == Returned(None)
    ensures r == ThrewJsonException <==> read.ReadDone? && read.readBytes > 0 && parseJson(read.buffer).None?
    ensures r.Returned? && r.manifest.Some? ==> read.ReadDone? && read.readBytes > 0 && parseJson(read.buffer) == r.manifest
  {
    match read
    case ReadFailed => Returned(None)
    case ReadDone(readBytes, buffer) =>
      if readBytes > 0 then
        match parseJson(buffer)
        case None => ThrewJsonException
        case Some(m) => Returned(Some(m))
      else Returned(None)
  }

  /** The manifestObject loadManifest leaves, from the one it found. */
  function LoadedManifest(previous: Option<Manifest>, assets: Assets, parseJson: JsonParser): Option<Manifest>
  {
    if AssetExists(assets.listing, ManifestFile) then
      match LoadLocalManifest(assets.manifestRead, parseJson)
      case ThrewJsonException => previous
      case Returned(m) => m
    else previous
  }

  /** Starting from null, the loader yields a manifest only when manifest.json is
      listed, a positive number of bytes was read and the bytes parse; a missing
      asset, an I/O failure, an empty read or a parse failure all leave it unset. */
  lemma LoadedManifestOnlyFromParsedBytes(assets: Assets, parseJson: JsonParser)
    ensures LoadedManifest(None, assets, parseJson).Some?
        <==> && AssetExists(assets.listing, ManifestFile)
             && assets.manifestRead.ReadDone?
             && assets.manifestRead.readBytes > 0
             && parseJson(assets.manifestRead.buffer).Some?
    ensures LoadedManifest(None, assets, parseJson).Some? ==>
              LoadedManifest(None, assets, parseJson) == parseJson(assets.manifestRead.buffer)
  {
  }

  // ---------------------------------------------------------------------------
  // The activity

  /** What setWebView configures: JavaScript on, the scope guard, the page loaded. */
  datatype WebViewSetup = WebViewSetup(javaScriptEnabled: bool, client: ScopeGuard.PwaWebViewClient, loadedUrl: string)

  /** The decisions onCreate hands to the platform. */
  datatype ActivitySetup = ActivitySetup(theme: Theme, orientation: ScreenOrientation, title: Option<string>, webView: WebViewSetup)

  /** setDisplay dereferences manifestObject, which is null when loading failed. */
  datatype Crash = NullManifestDereference

  class MainActivity {
    var manifestObject: Option<Manifest>

    constructor ()
      ensures manifestObject == None
    {
      manifestObject := None;
    }

    /** loadManifest: assigns what loadLocalManifest returns when the asset exists;
        a JSONException leaves the field as it was. */
    method LoadManifest(assets: Assets, parseJson: JsonParser)
      modifies this
      ensures manifestObject == LoadedManifest(old(manifestObject), assets, parseJson)
    {
      if AssetExists(assets.listing, ManifestFile) {
        var loaded := LoadLocalManifest(assets.manifestRead, parseJson);
        if loaded.Returned? {
          manifestObject := loaded.manifest;
        }
      }
    }

    /** setWebView: enables JavaScript, installs a guard built from start_url and
        scope, and loads exactly start_url. */
    method SetWebView(urls: ScopeGuard.UrlLibrary) returns (webView: WebViewSetup)
      requires manifestObject.Some?
      ensures webView.javaScriptEnabled
      ensures fresh(webView.client)
      ensures webView.client.scopePattern
           == ScopeGuard.ScopePattern(manifestObject.value.startUrl, manifestObject.value.scope, urls)
      ensures webView.loadedUrl == manifestObject.value.startUrl
    {
      var startUrl := manifestObject.value.startUrl;
      var scope := manifestObject.value.scope;
      var client := new ScopeGuard.PwaWebViewClient(startUrl, scope, urls);
      webView := WebViewSetup(true, client, startUrl);
    }

    /** onCreate: load the manifest, then theme, orientation, title and web view, in
        that order; without a manifest the first of them dereferences null. */
    method OnCreate(assets: Assets, parseJson: JsonParser, urls: ScopeGuard.UrlLibrary)
      returns (setup: Result<ActivitySetup, Crash>)
      modifies this
      ensures manifestObject == LoadedManifest(old(manifestObject), assets, parseJson)
      ensures setup.Err? <==> manifestObject.None?
      ensures setup.Ok? ==>
        var m, s := manifestObject.value, setup.value;
        && s.theme == DisplayTheme(m.display)
        && s.orientation == RequestedOrientation(m.orientation)
        && s.title == WindowTitle(m.name)
        && s.webView.javaScriptEnabled
        && s.webView.client.scopePattern == ScopeGuard.ScopePattern(m.startUrl, m.scope, urls)
        && s.webView.loadedUrl == m.startUrl
        && fresh(s.webView.client)
    {
      LoadManifest(assets, parseJson);
      if manifestObject.None? {
        return Err(NullManifestDereference);
      }
      var m := manifestObject.value;
      var theme := DisplayTheme(m.display);
      var orientation := RequestedOrientation(m.orientation);
      var title := WindowTitle(m.name);
      var webView := SetWebView(urls);
      setup := Ok(ActivitySetup(theme, orientation, title, webView));
    }
  }
}
