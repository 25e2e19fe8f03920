/**
 * The packaging decisions of the build server's BubbleWrapper: the TWA manifest it
 * hands to Bubblewrap (host without protocol, the shortcuts, the signing key), and
 * which steps of the build run and what they produce (signed or unsigned package,
 * a new key or an existing one, asset links when they can be generated).
 *
 * Bubblewrap, the JDK and Android SDK tools and the WHATWG URL parser are external:
 * each tool step is represented by whether it succeeds, and URL parsing by functions.
 */
module TwaPackaging {
  import opened Common
  import Seqs

  // ---------------------------------------------------------------------------
  // Data

  /** The two properties of a WHATWG URL the build reads. */
  datatype WhatwgUrl = WhatwgUrl(protocol: string, href: string)

  /** The URL constructor: `new URL(input)` and `new URL(input, base).toString()`;
      None stands for the TypeError an invalid URL throws. */
  datatype UrlApi = UrlApi(
    parse: string -> Option<WhatwgUrl>,
    resolve: (string, string) -> Option<string>)

  datatype IconJson = IconJson(src: string, sizes: Option<string>, purpose: Option<string>)

  /** A shortcut of the web manifest; every member may be missing. */
  datatype ShortcutJson = ShortcutJson(
    name: Option<string>,
    shortName: Option<string>,
    url: Option<string>,
    icons: Option<seq<IconJson>>)

  /** The shortcut record Bubblewrap receives. */
  datatype ShortcutInfo = ShortcutInfo(name: string, shortName: string, url: string, chosenIconUrl: string)

  /** Bubblewrap's findSuitableIcon(icons, purpose), left abstract. */
  type IconFinder = (seq<IconJson>, string) -> Option<IconJson>

  /** Signing options with the local path of the key store. */
  datatype LocalKeyFileSigningOptions = LocalKeyFileSigningOptions(
    file: Option<string>,
    alias: string,
    fullName: string,
    organization: string,
    organizationalUnit: string,
    countryCode: string,
    keyPassword: string,
    storePassword: string,
    keyFilePath: string)

  /** The members of AndroidPackageOptions the build decides on; every other member is
      copied into the TWA manifest unchanged. */
  datatype AndroidPackageOptions = AndroidPackageOptions(
    host: string,
    packageId: string,
    shortcuts: seq<Option<ShortcutJson>>,
    signingMode: string,
    webManifestUrl: Option<string>)

  datatype SigningKey = SigningKey(path: string, alias: string)

  /** The TWA manifest JSON: the options, with host, shortcuts, signing key and
      generator overridden. */
  datatype TwaManifestJson = TwaManifestJson(
    options: AndroidPackageOptions,
    host: string,
    shortcuts: seq<ShortcutInfo>,
    signingKey: SigningKey,
    generatorApp: string)

  /** KeyTool's CreateKeyOptions. */
  datatype CreateKeyOptions = CreateKeyOptions(
    path: string, password: string, keypassword: string, alias: string,
    fullName: string, organization: string, organizationalUnit: string, country: string)

  datatype Tool = TwaGenerator | GradleAssemble | Zipalign | KeyToolCreate | ApkSigner
                | KeyToolInfo | AssetLinksWrite | GradleBundle | JarSigner

  /** Why a build step threw. */
  datatype BuildError =
    | InvalidUrl(input: string)
    | MissingSigningInfo(fullName: string, organization: string, organizationalUnit: string, countryCode: string)
    | MissingSha256Fingerprint
    | ToolFailed(tool: Tool)

  /** How each external step turns out; `sha256` is the SHA256 fingerprint KeyTool
      reports for the key, if any. */
  datatype Toolchain = Toolchain(succeeds: Tool -> bool, sha256: Option<string>)

  /** GeneratedAppPackage. */
  datatype GeneratedAppPackage = GeneratedAppPackage(
    projectDirectory: string,
    appBundleFilePath: Option<string>,
    apkFilePath: string,
    signingInfo: Option<LocalKeyFileSigningOptions>,
    assetLinkFilePath: Option<string>)

  /** JavaScript truthiness, restricted to the optional strings this file tests:
      present and non-empty. */
  predicate Truthy(s: Option<string>)
  {
    s.Some? && s.value != ""
  }

  // ---------------------------------------------------------------------------
  // Host normalisation

  /** String.prototype.substr(start) for a non-negative start. */
  function Substr(s: string, start: nat): string
  {
    if start <= |s| then s[start..] else ""
  }

  /** `host.href.substr(hostProtocol.length)` with hostProtocol = protocol + "//". */
  function StripProtocol(url: WhatwgUrl): string
  {
    Substr(url.href, |url.protocol + "//"|)
  }

  /** Drops one trailing `/`, if there is one. */
  function TrimTrailingSlash(s: string): string
  {
    if EndsWith(s, "/") then s[..|s| - 1] else s
  }

  /** The host Bubblewrap receives: the href without its protocol and `//`, and
      without one trailing `/`. */
  function HostWithoutProtocol(url: WhatwgUrl): (host: string)
    ensures HasProtocolPrefix(url) ==>
      var rest := url.href[|url.protocol| + 2..];
      && (EndsWith(rest, "/") ==> host + "/" == rest)
      && (!EndsWith(rest, "/") ==> host == rest)
  {
    TrimRemovesAtMostOneSlash(StripProtocol(url));
    TrimTrailingSlash(StripProtocol(url))
  }

  /** The href starts with `<protocol>//`, as WHATWG gives for http and https. */
  predicate HasProtocolPrefix(url: WhatwgUrl)
  {
    |url.protocol| + 2 <= |url.href| && url.href[..|url.protocol| + 2] == url.protocol + "//"
  }

  /** For an href that starts with `<protocol>//` (as WHATWG gives for http and
      https), exactly that prefix is removed. */
  lemma StripProtocolRemovesExactlyThePrefix(url: WhatwgUrl)
    requires HasProtocolPrefix(url)
    ensures url.protocol + "//" + StripProtocol(url) == url.href
  {
    assert url.href == url.href[..|url.protocol| + 2] + url.href[|url.protocol| + 2..];
  }

  /** At most one slash goes: putting it back gives the stripped text again. */
  lemma TrimRemovesAtMostOneSlash(s: string)
    ensures EndsWith(s, "/") ==> TrimTrailingSlash(s) + "/" == s
    ensures !EndsWith(s, "/") ==> TrimTrailingSlash(s) == s
  {
    if EndsWith(s, "/") {
      assert s == s[..|s| - 1] + s[|s| - 1..];
    }
  }

  /** The host of `https://example.com/` and of a subpath URL. */
  lemma HostExamples(a: WhatwgUrl, b: WhatwgUrl)
    requires a == WhatwgUrl("https:", "https://example.com/")
    requires b == WhatwgUrl("https:", "https://ics.hutton.ac.uk/gridscore/")
    ensures HostWithoutProtocol(a) == "example.com"
    ensures HostWithoutProtocol(b) == "ics.hutton.ac.uk/gridscore"
  {
    assert StripProtocol(a) == "example.com/";
    assert StripProtocol(b) == "ics.hutton.ac.uk/gridscore/";
  }

  // ---------------------------------------------------------------------------
  // Shortcuts

  const MaxShortcuts: nat := 4
  const ShortNameMaxSize: nat := 12

  /** isValidShortcut: a shortcut is kept exactly when it is present, has icons, a
      URL, a name or a short name, and a suitable `any` icon. */
  predicate IsValidShortcut(shortcut: Option<ShortcutJson>, findIcon: IconFinder): (valid: bool)
    ensures valid <==>
      && shortcut.Some?
      && shortcut.value.icons.Some?
      && Truthy(shortcut.value.url)
      && (Truthy(shortcut.value.name) || Truthy(shortcut.value.shortName))
      && findIcon(shortcut.value.icons.value, "any").Some?
  {
    if shortcut.None? then false
    else if shortcut.value.icons.None? then false
    else if !Truthy(shortcut.value.url) then false
    else if !Truthy(shortcut.value.name) && !Truthy(shortcut.value.shortName) then false
    else if findIcon(shortcut.value.icons.value, "any").None? then false
    else true
  }

  function ValidFor(findIcon: IconFinder): Option<ShortcutJson> -> bool
  {
    s => IsValidShortcut(s, findIcon)
  }

  function ValidShortcuts(shortcuts: seq<Option<ShortcutJson>>, findIcon: IconFinder): seq<Option<ShortcutJson>>
  {
    Seqs.Filter(shortcuts, ValidFor(findIcon))
  }

  lemma ValidShortcutsAreValid(shortcuts: seq<Option<ShortcutJson>>, findIcon: IconFinder)
    ensures forall i :: 0 <= i < |ValidShortcuts(shortcuts, findIcon)| ==>
      IsValidShortcut(ValidShortcuts(shortcuts, findIcon)[i], findIcon)
  {
    Seqs.FilterAllSatisfy(shortcuts, ValidFor(findIcon));
  }

  /** createShortcut: name is `name || short_name`; the short name is `short_name`, or
      else the first twelve characters of the name; both URLs are resolved against
      the manifest URL, the shortcut's own first. */
  function CreateShortcut(shortcut: ShortcutJson, manifestUrl: string, urls: UrlApi, findIcon: IconFinder)
    : (r: Result<ShortcutInfo, BuildError>)
    requires IsValidShortcut(Some(shortcut), findIcon)
    ensures r.Ok? ==> r.value.name != "" && r.value.shortName != ""
    ensures r.Ok? ==> r.value.name == if Truthy(shortcut.name) then shortcut.name.value else shortcut.shortName.value
    ensures r.Ok? && Truthy(shortcut.shortName) ==> r.value.shortName == shortcut.shortName.value
    ensures r.Ok? && !Truthy(shortcut.shortName) ==>
      && |r.value.shortName| <= ShortNameMaxSize
      && |r.value.shortName| == (if |shortcut.name.value| < ShortNameMaxSize then |shortcut.name.value| else ShortNameMaxSize)
      && r.value.shortName == shortcut.name.value[..|r.value.shortName|]
    ensures r.Err? <==>
      || urls.resolve(shortcut.url.value, manifestUrl).None?
      || urls.resolve(findIcon(shortcut.icons.value, "any").value.src, manifestUrl).None?
    ensures r.Ok? ==>
      && r.value.url == urls.resolve(shortcut.url.value, manifestUrl).value
      && r.value.chosenIconUrl == urls.resolve(findIcon(shortcut.icons.value, "any").value.src, manifestUrl).value
  {
    var name := if Truthy(shortcut.name) then shortcut.name.value else shortcut.shortName.value;
    var shortName :=
      if Truthy(shortcut.shortName) then shortcut.shortName.value
      else var n := shortcut.name.value; n[..if |n| < ShortNameMaxSize then |n| else ShortNameMaxSize];
    match urls.resolve(shortcut.url.value, manifestUrl)
    case None => Err(InvalidUrl(shortcut.url.value))
    case Some(url) =>
      var icon := findIcon(shortcut.icons.value, "any").value;
      match urls.resolve(icon.src, manifestUrl)
      case None => Err(InvalidUrl(icon.src))
      case Some(iconUrl) => Ok(ShortcutInfo(name, shortName, url, iconUrl))
  }

  /** `.map(createShortcut)`: creates every shortcut in order; the first that throws
      ends the map. */
  function CreateAll(valid: seq<Option<ShortcutJson>>, manifestUrl: string, urls: UrlApi, findIcon: IconFinder)
    : (r: Result<seq<ShortcutInfo>, BuildError>)
    requires forall i :: 0 <= i < |valid| ==> valid[i].Some? && IsValidShortcut(valid[i], findIcon)
    ensures r.Ok? ==> |r.value| == |valid|
    ensures r.Ok? ==> forall i :: 0 <= i < |valid| ==>
      CreateShortcut(valid[i].value, manifestUrl, urls, findIcon) == Ok(r.value[i])
    ensures r.Err? <==> exists i :: 0 <= i < |valid| && CreateShortcut(valid[i].value, manifestUrl, urls, findIcon).Err?
  {
    if valid == [] then Ok([])
    else
      match CreateShortcut(valid[0].value, manifestUrl, urls, findIcon)
      case Err(e) => Err(e)
      case Ok(first) =>
        match CreateAll(valid[1..], manifestUrl, urls, findIcon)
        case Err(e) =>
          assert exists i :: 0 <= i < |valid[1..]| && CreateShortcut(valid[1..][i].value, manifestUrl, urls, findIcon).Err?;
          var i :| 0 <= i < |valid[1..]| && CreateShortcut(valid[1..][i].value, manifestUrl, urls, findIcon).Err?;
          assert valid[1..][i] == valid[i + 1];
          Err(e)
        case Ok(rest) =>
          assert forall i :: 1 <= i < |valid| ==> valid[i] == valid[1..][i - 1];
          Ok([first] + rest)
  }

  /** Some kept shortcut fails to be created iff some valid input shortcut does. */
  lemma ValidFailureIsInputFailure(shortcuts: seq<Option<ShortcutJson>>, manifestUrl: string, urls: UrlApi, findIcon: IconFinder)
    ensures var valid := ValidShortcuts(shortcuts, findIcon);
      (exists i :: 0 <= i < |valid| && IsValidShortcut(valid[i], findIcon)
                   && CreateShortcut(valid[i].value, manifestUrl, urls, findIcon).Err?)
      <==> (exists j :: 0 <= j < |shortcuts| && IsValidShortcut(shortcuts[j], findIcon)
                        && CreateShortcut(shortcuts[j].value, manifestUrl, urls, findIcon).Err?)
  {
    var valid := ValidShortcuts(shortcuts, findIcon);
    if i :| 0 <= i < |valid| && IsValidShortcut(valid[i], findIcon)
            && CreateShortcut(valid[i].value, manifestUrl, urls, findIcon).Err? {
      Seqs.FilterMembership(shortcuts, ValidFor(findIcon), valid[i]);
      var j :| 0 <= j < |shortcuts| && shortcuts[j] == valid[i];
    }
    if j :| 0 <= j < |shortcuts| && IsValidShortcut(shortcuts[j], findIcon)
            && CreateShortcut(shortcuts[j].value, manifestUrl, urls, findIcon).Err? {
      Seqs.FilterMembership(shortcuts, ValidFor(findIcon), shortcuts[j]);
      var i :| 0 <= i < |valid| && valid[i] == shortcuts[j];
    }
  }

  /** createShortcuts: none without a manifest URL; otherwise the valid shortcuts,
      created in input order, cut to the first four. */
  function CreateShortcuts(shortcuts: seq<Option<ShortcutJson>>, manifestUrl: Option<string>, urls: UrlApi, findIcon: IconFinder)
    : (r: Result<seq<ShortcutInfo>, BuildError>)
    ensures !Truthy(manifestUrl) ==> r == Ok([])
    ensures r.Ok? ==> |r.value| <= MaxShortcuts
    ensures Truthy(manifestUrl) && r.Ok? ==>
      |r.value| == if |ValidShortcuts(shortcuts, findIcon)| < MaxShortcuts then |ValidShortcuts(shortcuts, findIcon)| else MaxShortcuts
    ensures Truthy(manifestUrl) ==>
      (r.Err? <==> exists j :: 0 <= j < |shortcuts| && IsValidShortcut(shortcuts[j], findIcon)
                                && CreateShortcut(shortcuts[j].value, manifestUrl.value, urls, findIcon).Err?)
  {
    if !Truthy(manifestUrl) then Ok([])
    else
      var valid := ValidShortcuts(shortcuts, findIcon);
      ValidShortcutsAreValid(shortcuts, findIcon);
      ValidFailureIsInputFailure(shortcuts, manifestUrl.value, urls, findIcon);
      match CreateAll(valid, manifestUrl.value, urls, findIcon)
      case Err(e) => Err(e)
      case Ok(infos) => Ok(Seqs.Take(infos, MaxShortcuts))
  }

  /** The shortcuts kept are the first four valid ones in input order: a valid input
      shortcut preceded by k valid ones is output number k when k < 4, and is not
      output otherwise. */
  lemma ShortcutsAreFirstFourValid(shortcuts: seq<Option<ShortcutJson>>, manifestUrl: Option<string>,
                                   urls: UrlApi, findIcon: IconFinder, j: nat)
    requires Truthy(manifestUrl) && CreateShortcuts(shortcuts, manifestUrl, urls, findIcon).Ok?
    requires j < |shortcuts| && IsValidShortcut(shortcuts[j], findIcon)
    ensures var r, k := CreateShortcuts(shortcuts, manifestUrl, urls, findIcon).value,
                        |ValidShortcuts(shortcuts[..j], findIcon)|;
      && (k < |r| <==> k < MaxShortcuts)
      && (k < MaxShortcuts ==> CreateShortcut(shortcuts[j].value, manifestUrl.value, urls, findIcon) == Ok(r[k]))
  {
    var valid := ValidShortcuts(shortcuts, findIcon);
    ValidShortcutsAreValid(shortcuts, findIcon);
    Seqs.FilterPosition(shortcuts, ValidFor(findIcon), j);
    var k := |ValidShortcuts(shortcuts[..j], findIcon)|;
    assert valid[k] == shortcuts[j];
  }

  /** Every shortcut output is the creation of some valid input shortcut. */
  lemma ShortcutsComeFromValidInputs(shortcuts: seq<Option<ShortcutJson>>, manifestUrl: Option<string>,
                                     urls: UrlApi, findIcon: IconFinder, i: nat)
    requires Truthy(manifestUrl) && CreateShortcuts(shortcuts, manifestUrl, urls, findIcon).Ok?
    requires i < |CreateShortcuts(shortcuts, manifestUrl, urls, findIcon).value|
    ensures exists j ::
      && 0 <= j < |shortcuts|
      && IsValidShortcut(shortcuts[j], findIcon)
      && CreateShortcut(shortcuts[j].value, manifestUrl.value, urls, findIcon)
         == Ok(CreateShortcuts(shortcuts, manifestUrl, urls, findIcon).value[i])
  {
    var valid := ValidShortcuts(shortcuts, findIcon);
    ValidShortcutsAreValid(shortcuts, findIcon);
    Seqs.FilterMembership(shortcuts, ValidFor(findIcon), valid[i]);
    var j :| 0 <= j < |shortcuts| && shortcuts[j] == valid[i];
    assert ValidFor(findIcon)(shortcuts[j]);
  }

  /** The map runs over every valid shortcut before the cut to four, so a valid
      shortcut past the fourth whose URL cannot be resolved still fails the build. */
  lemma AnyValidShortcutCanFail(shortcuts: seq<Option<ShortcutJson>>, manifestUrl: Option<string>,
                                urls: UrlApi, findIcon: IconFinder, j: nat)
    requires Truthy(manifestUrl)
    requires j < |shortcuts| && IsValidShortcut(shortcuts[j], findIcon)
    requires CreateShortcut(shortcuts[j].value, manifestUrl.value, urls, findIcon).Err?
    ensures CreateShortcuts(shortcuts, manifestUrl, urls, findIcon).Err?
  {
    var valid := ValidShortcuts(shortcuts, findIcon);
    ValidShortcutsAreValid(shortcuts, findIcon);
    Seqs.FilterPosition(shortcuts, ValidFor(findIcon), j);
    var k := |ValidShortcuts(shortcuts[..j], findIcon)|;
    assert valid[k] == shortcuts[j];
  }

  // ---------------------------------------------------------------------------
  // The TWA manifest

  /** createTwaManifest: the options with host replaced by the normalised host,
      shortcuts by the created ones, the signing key's path and alias (empty without
      signing info), and the generator `PWABuilder`. */
  function CreateTwaManifest(options: AndroidPackageOptions, signingKeyInfo: Option<LocalKeyFileSigningOptions>,
                             urls: UrlApi, findIcon: IconFinder): (r: Result<TwaManifestJson, BuildError>)
    ensures urls.parse(options.host).None? ==> r == Err(InvalidUrl(options.host))
    ensures urls.parse(options.host).Some? ==>
      (r.Ok? <==> CreateShortcuts(options.shortcuts, options.webManifestUrl, urls, findIcon).Ok?)
    ensures r.Ok? ==>
      && urls.parse(options.host).Some?
      && r.value.host == HostWithoutProtocol(urls.parse(options.host).value)
      && Ok(r.value.shortcuts) == CreateShortcuts(options.shortcuts, options.webManifestUrl, urls, findIcon)
      && r.value.options == options
      && r.value.generatorApp == "PWABuilder"
    ensures r.Ok? && signingKeyInfo.None? ==> r.value.signingKey == SigningKey("", "")
    ensures r.Ok? && signingKeyInfo.Some? ==>
      r.value.signingKey == SigningKey(signingKeyInfo.value.keyFilePath, signingKeyInfo.value.alias)
  {
    match urls.parse(options.host)
    case None => Err(InvalidUrl(options.host))
    case Some(host) =>
      var hostWithoutHttps := HostWithoutProtocol(host);
      var signingKey := match signingKeyInfo
        case None => SigningKey("", "")
        case Some(info) => SigningKey(info.keyFilePath, info.alias);
      match CreateShortcuts(options.shortcuts, options.webManifestUrl, urls, findIcon)
      case Err(e) => Err(e)
      case Ok(shortcuts) => Ok(TwaManifestJson(options, hostWithoutHttps, shortcuts, signingKey, "PWABuilder"))
  }

  // ---------------------------------------------------------------------------
  // Build steps

  function Step(tools: Toolchain, tool: Tool, output: string): (r: Result<string, BuildError>)
    ensures r.Ok? <==> tools.succeeds(tool)
    ensures r.Ok? ==> r.value == output
    ensures r.Err? ==> r.error == ToolFailed(tool)
  {
    if tools.succeeds(tool) then Ok(output) else Err(ToolFailed(tool))
  }

  function UnsignedApkPath(projectDirectory: string): string
  {
    projectDirectory + "/app/build/outputs/apk/release/app-release-unsigned.apk"
  }

  function OptimizedApkPath(projectDirectory: string): string
  {
    projectDirectory + "/app-release-unsigned-aligned.apk"
  }

  function SignedApkPath(projectDirectory: string): string
  {
    projectDirectory + "/app-release-signed.apk"
  }

  function AssetLinksPath(projectDirectory: string): string
  {
    projectDirectory + "/app/build/outputs/apk/release/assetlinks.json"
  }

  function SignedBundlePath(projectDirectory: string): string
  {
    projectDirectory + "/app/build/outputs/bundle/release/app-release-signed.aab"
  }

  /** createSigningKey: refuses to run KeyTool unless the four identity fields are all
      non-empty; the key options copy the signing info. */
  function CreateSigningKey(signingInfo: LocalKeyFileSigningOptions, tools: Toolchain): (r: Result<CreateKeyOptions, BuildError>)
    ensures (|| signingInfo.fullName == "" || signingInfo.organization == ""
             || signingInfo.organizationalUnit == "" || signingInfo.countryCode == "")
            ==> r == Err(MissingSigningInfo(signingInfo.fullName, signingInfo.organization,
                                            signingInfo.organizationalUnit, signingInfo.countryCode))
    ensures (&& signingInfo.fullName != "" && signingInfo.organization != ""
             && signingInfo.organizationalUnit != "" && signingInfo.countryCode != "")
            ==> (r.Ok? <==> tools.succeeds(KeyToolCreate))
    ensures r.Ok? ==>
      && tools.succeeds(KeyToolCreate)
      && r.value.path == signingInfo.keyFilePath && r.value.alias == signingInfo.alias
      && r.value.password == signingInfo.storePassword && r.value.keypassword == signingInfo.keyPassword
      && r.value.fullName == signingInfo.fullName && r.value.organization == signingInfo.organization
      && r.value.organizationalUnit == signingInfo.organizationalUnit && r.value.country == signingInfo.countryCode
      && r.value.fullName != "" && r.value.organization != "" && r.value.organizationalUnit != "" && r.value.country != ""
  {
    if signingInfo.fullName == "" || signingInfo.organization == ""
       || signingInfo.organizationalUnit == "" || signingInfo.countryCode == "" then
      Err(MissingSigningInfo(signingInfo.fullName, signingInfo.organization,
                             signingInfo.organizationalUnit, signingInfo.countryCode))
    else if !tools.succeeds(KeyToolCreate) then Err(ToolFailed(KeyToolCreate))
    else
      Ok(CreateKeyOptions(signingInfo.keyFilePath, signingInfo.storePassword, signingInfo.keyPassword,
                          signingInfo.alias, signingInfo.fullName, signingInfo.organization,
                          signingInfo.organizationalUnit, signingInfo.countryCode))
  }

  /** The signed APK and, for signing mode `new`, the key that was created for it. */
  datatype SignedApk = SignedApk(path: string, createdKey: Option<CreateKeyOptions>)

  /** signApk: creates a key first only in signing mode `new`, then runs apksigner. */
  function SignApk(signingMode: string, projectDirectory: string, signingInfo: LocalKeyFileSigningOptions,
                   tools: Toolchain): (r: Result<SignedApk, BuildError>)
    ensures r.Ok? ==> r.value.path == SignedApkPath(projectDirectory) && tools.succeeds(ApkSigner)
    ensures r.Ok? ==> (r.value.createdKey.Some? <==> signingMode == "new")
    ensures signingMode == "new" ==> match CreateSigningKey(signingInfo, tools)
      case Err(e) => r == Err(e)
      case Ok(key) => r.Ok? ==> r.value.createdKey == Some(key)
    ensures signingMode == "new" ==> (r.Ok? <==> CreateSigningKey(signingInfo, tools).Ok? && tools.succeeds(ApkSigner))
    ensures signingMode != "new" ==> (r.Ok? <==> tools.succeeds(ApkSigner))
  {
    var createdKey: Result<Option<CreateKeyOptions>, BuildError> :=
      if signingMode == "new" then
        match CreateSigningKey(signingInfo, tools)
        case Err(e) => Err(e)
        case Ok(key) => Ok(Some(key))
      else Ok(None);
    match createdKey
    case Err(e) => Err(e)
    case Ok(key) =>
      match Step(tools, ApkSigner, SignedApkPath(projectDirectory))
      case Err(e) => Err(e)
      case Ok(path) => Ok(SignedApk(path, key))
  }

  /** generateAssetLinks: needs KeyTool's key info, a SHA256 fingerprint in it, and
      the file written. */
  function GenerateAssetLinks(projectDirectory: string, tools: Toolchain): (r: Result<string, BuildError>)
    ensures r.Ok? <==> tools.succeeds(KeyToolInfo) && Truthy(tools.sha256) && tools.succeeds(AssetLinksWrite)
    ensures r.Ok? ==> r.value == AssetLinksPath(projectDirectory)
    ensures tools.succeeds(KeyToolInfo) && !Truthy(tools.sha256) ==> r == Err(MissingSha256Fingerprint)
  {
    if !tools.succeeds(KeyToolInfo) then Err(ToolFailed(KeyToolInfo))
    else if !Truthy(tools.sha256) then Err(MissingSha256Fingerprint)
    else Step(tools, AssetLinksWrite, AssetLinksPath(projectDirectory))
  }

  /** tryGenerateAssetLinks: the asset links path, or null instead of an error. */
  function TryGenerateAssetLinks(projectDirectory: string, tools: Toolchain): (r: Option<string>)
    ensures r.Some? <==> GenerateAssetLinks(projectDirectory, tools).Ok?
    ensures r.Some? ==> r.value == AssetLinksPath(projectDirectory)
  {
    match GenerateAssetLinks(projectDirectory, tools)
    case Err(_) => None
    case Ok(path) => Some(path)
  }

  /** buildAppBundle: gradle bundleRelease, then jarsigner. */
  function BuildAppBundle(projectDirectory: string, tools: Toolchain): (r: Result<string, BuildError>)
    ensures r.Ok? <==> tools.succeeds(GradleBundle) && tools.succeeds(JarSigner)
    ensures r.Ok? ==> r.value == SignedBundlePath(projectDirectory)
  {
    match Step(tools, GradleBundle, SignedBundlePath(projectDirectory))
    case Err(e) => Err(e)
    case Ok(_) => Step(tools, JarSigner, SignedBundlePath(projectDirectory))
  }

  /** Whether generateAppPackage takes the signed branch. */
  predicate SignsPackage(options: AndroidPackageOptions, signingKeyInfo: Option<LocalKeyFileSigningOptions>)
  {
    options.signingMode != "none" && signingKeyInfo.Some?
  }

  /** generateAppPackage: project, APK, zipalign; then, with a signing mode other than
      `none` and signing info, sign, try asset links and build the app bundle. */
  method GenerateAppPackage(options: AndroidPackageOptions, projectDirectory: string,
                            signingKeyInfo: Option<LocalKeyFileSigningOptions>,
                            urls: UrlApi, findIcon: IconFinder, tools: Toolchain)
    returns (r: Result<GeneratedAppPackage, BuildError>)
    ensures r.Ok? <==>
      && CreateTwaManifest(options, signingKeyInfo, urls, findIcon).Ok?
      && tools.succeeds(TwaGenerator) && tools.succeeds(GradleAssemble) && tools.succeeds(Zipalign)
      && (SignsPackage(options, signingKeyInfo) ==>
            && SignApk(options.signingMode, projectDirectory, signingKeyInfo.value, tools).Ok?
            && BuildAppBundle(projectDirectory, tools).Ok?)
    ensures r.Ok? ==> r.value.projectDirectory == projectDirectory && r.value.signingInfo == signingKeyInfo
    ensures r.Ok? && SignsPackage(options, signingKeyInfo) ==>
      && r.value.apkFilePath == SignedApkPath(projectDirectory)
      && r.value.appBundleFilePath == Some(SignedBundlePath(projectDirectory))
      && r.value.assetLinkFilePath == TryGenerateAssetLinks(projectDirectory, tools)
    ensures r.Ok? && !SignsPackage(options, signingKeyInfo) ==>
      && r.value.apkFilePath == OptimizedApkPath(projectDirectory)
      && r.value.appBundleFilePath == None
      && r.value.assetLinkFilePath == None
  {
    var manifest := CreateTwaManifest(options, signingKeyInfo, urls, findIcon);
    if manifest.Err? {
      return Err(manifest.error);
    }
    var project := Step(tools, TwaGenerator, projectDirectory);
    if project.Err? {
      return Err(project.error);
    }
    var apkPath := Step(tools, GradleAssemble, UnsignedApkPath(projectDirectory));
    if apkPath.Err? {
      return Err(apkPath.error);
    }
    var optimizedApkPath := Step(tools, Zipalign, OptimizedApkPath(projectDirectory));
    if optimizedApkPath.Err? {
      return Err(optimizedApkPath.error);
    }

    if options.signingMode != "none" && signingKeyInfo.Some? {
      var signed := SignApk(options.signingMode, projectDirectory, signingKeyInfo.value, tools);
      if signed.Err? {
        return Err(signed.error);
      }
      var assetLinksPath := TryGenerateAssetLinks(projectDirectory, tools);
      var appBundlePath := BuildAppBundle(projectDirectory, tools);
      if appBundlePath.Err? {
        return Err(appBundlePath.error);
      }
      return Ok(GeneratedAppPackage(projectDirectory, Some(appBundlePath.value), signed.value.path,
                                    signingKeyInfo, assetLinksPath));
    }

    return Ok(GeneratedAppPackage(projectDirectory, None, optimizedApkPath.value, signingKeyInfo, None));
  }

  // ---------------------------------------------------------------------------
  // Properties of the signing decisions

  /** Identity fields are checked only when a new key is made: with any signing mode
      other than `new` an existing key signs whatever the identity fields hold. */
  lemma ExistingKeyNeedsNoIdentity(signingMode: string, projectDirectory: string, signingInfo: LocalKeyFileSigningOptions,
                                   tools: Toolchain)
    requires signingMode != "new" && tools.succeeds(ApkSigner)
    ensures SignApk(signingMode, projectDirectory, signingInfo, tools) == Ok(SignedApk(SignedApkPath(projectDirectory), None))
  {
  }

  /** A new key with an empty identity field stops the build before apksigner runs. */
  lemma NewKeyRequiresIdentity(projectDirectory: string, signingInfo: LocalKeyFileSigningOptions, tools: Toolchain)
    requires || signingInfo.fullName == "" || signingInfo.organization == ""
             || signingInfo.organizationalUnit == "" || signingInfo.countryCode == ""
    ensures SignApk("new", projectDirectory, signingInfo, tools).Err?
    ensures SignApk("new", projectDirectory, signingInfo, tools).error.MissingSigningInfo?
  {
  }
}
