/** Platform detection and on-demand provisioning of a language server: the platform
    signature keys a table of packages; the provider derives where the server lives,
    resolves a download URL, and installs the package when its executable is missing. */
module Platform {
  import opened Wrappers
  import opened Paths
  import opened Host
  import opened Utils

  // ---------------------------------------------------------------------------
  // Platform details and signature
  // ---------------------------------------------------------------------------

  datatype OperatingSystem = Unknown | Windows | MacOS | Linux

  datatype PlatformDetails = PlatformDetails(operatingSystem: OperatingSystem, isOS64Bit: bool, isProcess64Bit: bool)

  /** `getPlatformDetails()` for a process whose `process.platform` is `platform`, whose
      `process.arch` is `arch`, and whose environment has `PROCESSOR_ARCHITEW6432`
      exactly when `hasWow64Variable` holds. */
  function GetPlatformDetails(platform: string, arch: string, hasWow64Variable: bool): (d: PlatformDetails)
    ensures d.operatingSystem == Windows <==> platform == "win32"
    ensures d.operatingSystem == MacOS <==> platform == "darwin"
    ensures d.operatingSystem == Linux <==> platform == "linux"
    ensures d.isProcess64Bit <==> arch == "x64"
    ensures d.isOS64Bit <==> d.isProcess64Bit || hasWow64Variable
    ensures d.isProcess64Bit ==> d.isOS64Bit
  {
    var os :=
      if platform == "win32" then Windows
      else if platform == "darwin" then MacOS
      else if platform == "linux" then Linux
      else Unknown;
    var isProcess64Bit := arch == "x64";
    PlatformDetails(os, isProcess64Bit || hasWow64Variable, isProcess64Bit)
  }

  function OsSignature(os: OperatingSystem): string
  {
    match os
    case Windows => "win"
    case Linux => "linux"
    case MacOS => "osx"
    case Unknown => "unknown"
  }

  function ArchSignature(isProcess64Bit: bool): string
  {
    if isProcess64Bit then "x64" else "x86"
  }

  /** The signature of already computed platform details. */
  function Signature(d: PlatformDetails): string
  {
    OsSignature(d.operatingSystem) + "-" + ArchSignature(d.isProcess64Bit)
  }

  /** `getPlatformSignature()`: an operating-system part and an architecture part joined by "-". */
  function GetPlatformSignature(platform: string, arch: string, hasWow64Variable: bool): (sig: string)
    ensures |sig| >= 7 && sig[|sig| - 4] == '-'
    ensures sig[|sig| - 3..] == (if arch == "x64" then "x64" else "x86")
    ensures sig[..|sig| - 4] in {"win", "linux", "osx", "unknown"}
    ensures sig[..|sig| - 4] == "win" <==> platform == "win32"
    ensures sig[..|sig| - 4] == "osx" <==> platform == "darwin"
    ensures sig[..|sig| - 4] == "linux" <==> platform == "linux"
  {
    var d := GetPlatformDetails(platform, arch, hasWow64Variable);
    var sig := Signature(d);
    assert sig[..|sig| - 4] == OsSignature(d.operatingSystem);
    assert sig[|sig| - 3..] == ArchSignature(d.isProcess64Bit);
    sig
  }

  /** Reads a signature back into an operating system and a process width. */
  function ParseSignature(sig: string): Option<(OperatingSystem, bool)>
  {
    if |sig| < 4 || sig[|sig| - 4] != '-' then None
    else
      var os := sig[..|sig| - 4];
      var arch := sig[|sig| - 3..];
      if arch != "x64" && arch != "x86" then None
      else if os == "win" then Some((Windows, arch == "x64"))
      else if os == "linux" then Some((Linux, arch == "x64"))
      else if os == "osx" then Some((MacOS, arch == "x64"))
      else if os == "unknown" then Some((Unknown, arch == "x64"))
      else None
  }

  lemma ParseSignatureInverts(d: PlatformDetails)
    ensures ParseSignature(Signature(d)) == Some((d.operatingSystem, d.isProcess64Bit))
  {
    var sig := Signature(d);
    assert sig[..|sig| - 4] == OsSignature(d.operatingSystem);
    assert sig[|sig| - 3..] == ArchSignature(d.isProcess64Bit);
  }

  /** Two processes share a signature exactly when they agree on the operating system and
      on the process width; `isOS64Bit` plays no part. */
  lemma SignatureInjective(d1: PlatformDetails, d2: PlatformDetails)
    ensures Signature(d1) == Signature(d2) <==>
      d1.operatingSystem == d2.operatingSystem && d1.isProcess64Bit == d2.isProcess64Bit
  {
    ParseSignatureInverts(d1);
    ParseSignatureInverts(d2);
  }

  // ---------------------------------------------------------------------------
  // Packages, repositories and the download URL
  // ---------------------------------------------------------------------------

  /** One platform's package: the executable's path inside the extracted package, and
      the package's file name. */
  datatype Package = Package(executable: string, platformPath: string)

  /** Where packages are published. */
  datatype Repository = GitHub(repo: string, channel: string) | UrlPrefix(url: string)

  /** Why provisioning failed. */
  datatype ProvisionError =
    | PlatformNotSupported
    | FileSystemError(code: ErrorCode, path: string)
    | ReleaseLookupFailed(cause: HttpError)
    | AssetNotFound
    | DownloadFailed(cause: HttpError)
    | ExtractionFailed
    | HttpsNotDefined

  /** The package table lookup the provider's constructor performs. */
  function LookupPackage(packs: map<string, Package>, d: PlatformDetails): (r: Result<Package, ProvisionError>)
    ensures r.Failure? <==> Signature(d) !in packs
    ensures r.Failure? ==> r.error == PlatformNotSupported
    ensures r.Success? ==> r.value == packs[Signature(d)]
  {
    var sig := Signature(d);
    if sig !in packs then Failure(PlatformNotSupported) else Success(packs[sig])
  }

  function ReleaseApiUrl(repo: string, channel: string): string
  {
    "https://api.github.com/repos/" + repo + "/releases/" + channel
  }

  /** The requests `getDownloadUrl` issues. */
  function UrlLookups(repo: Repository): seq<string>
  {
    match repo
    case GitHub(name, channel) => [ReleaseApiUrl(name, channel)]
    case UrlPrefix(_) => []
  }

  /** `assets.filter(x => x.name === name)`. */
  function MatchingAssets(assets: seq<Asset>, name: string): (r: seq<Asset>)
    ensures forall a :: a in r <==> a in assets && a.name == name
    ensures |r| <= |assets|
  {
    if assets == [] then []
    else if assets[0].name == name then [assets[0]] + MatchingAssets(assets[1..], name)
    else MatchingAssets(assets[1..], name)
  }

  /** `i` is the position of the first asset named `name`. */
  predicate IsFirstMatch(assets: seq<Asset>, name: string, i: int)
  {
    0 <= i < |assets| && assets[i].name == name && forall j :: 0 <= j < i ==> assets[j].name != name
  }

  /** Index 0 of the filtered list is the first asset whose name matches. */
  lemma {:induction false} FirstMatchingAsset(assets: seq<Asset>, name: string)
    requires MatchingAssets(assets, name) != []
    ensures exists i :: IsFirstMatch(assets, name, i) && assets[i] == MatchingAssets(assets, name)[0]
  {
    if assets[0].name == name {
      assert IsFirstMatch(assets, name, 0);
    } else {
      FirstMatchingAsset(assets[1..], name);
      var i :| IsFirstMatch(assets[1..], name, i) && assets[1..][i] == MatchingAssets(assets[1..], name)[0];
      assert IsFirstMatch(assets, name, i + 1);
    }
  }

  /** `getDownloadUrl(platfile)` against the given servers. */
  function DownloadUrl(repo: Repository, platfile: string, server: Server): (r: Result<string, ProvisionError>)
    ensures repo.UrlPrefix? ==> r == Success(repo.url + "/" + platfile)
    ensures repo.GitHub? ==>
      var release := HttpsGetOutcome(server.release(ReleaseApiUrl(repo.repo, repo.channel)));
      && (release.Failure? ==> r == Failure(ReleaseLookupFailed(release.error)))
      && (release.Success? ==>
            && (r.Success? <==> exists i :: 0 <= i < |release.value| && release.value[i].name == platfile)
            && (r.Failure? ==> r.error == AssetNotFound)
            && (r.Success? ==> exists i :: IsFirstMatch(release.value, platfile, i) &&
                                           r.value == release.value[i].browserDownloadUrl))
  {
    match repo
    case GitHub(name, channel) =>
      var release := HttpsGetOutcome(server.release(ReleaseApiUrl(name, channel)));
      if release.Failure? then Failure(ReleaseLookupFailed(release.error))
      else
        var matched := MatchingAssets(release.value, platfile);
        if |matched| == 0 then
          assert forall i :: 0 <= i < |release.value| ==> release.value[i] !in matched;
          Failure(AssetNotFound)
        else
          FirstMatchingAsset(release.value, platfile);
          Success(matched[0].browserDownloadUrl)
    case UrlPrefix(url) => Success(url + "/" + platfile)
  }

  /** `getDownloadUrl(platfile)` as written: the GitHub branch evaluates `new https.Agent()`
      although the module imports `Agent` and `get` from 'http' and never binds `https`,
      so it throws a ReferenceError before the release request is issued. */
  function DownloadUrlAsWritten(repo: Repository, platfile: string, server: Server): (r: Result<string, ProvisionError>)
    ensures repo.GitHub? ==> r == Failure(HttpsNotDefined)
    ensures repo.UrlPrefix? ==> r == DownloadUrl(repo, platfile, server)
  {
    match repo
    case GitHub(_, _) => Failure(HttpsNotDefined)
    case UrlPrefix(url) => Success(url + "/" + platfile)
  }

  /** A release that lists the package: the intended lookup finds the asset's URL, while the
      lookup as written fails for it, as for every GitHub repository. */
  lemma ListedAssetUnreachableAsWritten()
    ensures var repo := GitHub("owner/server", "latest");
            var server := Server(_ => Response(200, [Asset("server-linux-x64.zip", "https://example.org/s.zip")]),
                                 _ => RequestError);
      && DownloadUrl(repo, "server-linux-x64.zip", server) == Success("https://example.org/s.zip")
      && DownloadUrlAsWritten(repo, "server-linux-x64.zip", server) == Failure(HttpsNotDefined)
  {
  }

  // ---------------------------------------------------------------------------
  // The provider
  // ---------------------------------------------------------------------------

  /** The filesystem and the requests issued so far. */
  datatype World = World(fs: FsState, requests: seq<string>)

  /** What a provisioning step returned and the world it left behind. */
  datatype Transition<T> = Transition(result: Result<T, ProvisionError>, after: World)

  /** Every path the filesystem holds inside `dir` implies `dir` itself exists, as on a
      real filesystem. */
  predicate Rooted(s: FsState, dir: string)
  {
    forall q :: q in s.paths && IsUnder(q, dir) ==> dir in s.paths
  }

  /** A provider of one language server on one platform. The three paths are derived
      from the storage path and the platform's package, as the constructor does. */
  class LanguageServerProvider {
    const languageServerName: string
    const extensionStoragePath: string
    const languageServerPackage: Package
    const repo: Repository
    /** What `getPlatformDetails()` reports in this process. */
    const platform: PlatformDetails
    const languageServerDirectory: string := Join(extensionStoragePath, "server")
    const languageServerZip: string := languageServerDirectory + ".zip"
    const languageServerExe: string := Join(languageServerDirectory, languageServerPackage.executable)

    /** The part of the constructor after the package lookup succeeded. */
    constructor (name: string, storagePath: string, pkg: Package, repo: Repository, platform: PlatformDetails)
      ensures languageServerName == name && extensionStoragePath == storagePath
      ensures languageServerPackage == pkg && this.repo == repo && this.platform == platform
    {
      languageServerName := name;
      extensionStoragePath := storagePath;
      languageServerPackage := pkg;
      this.repo := repo;
      this.platform := platform;
    }

    method GetDownloadUrl(net: Network, platfile: string) returns (r: Result<string, ProvisionError>)
      modifies net
      ensures r == DownloadUrl(repo, platfile, net.server)
      ensures net.requests == old(net.requests) + UrlLookups(repo)
    {
      match repo
      case GitHub(name, channel) =>
        var release := HttpsGetJson(net, ReleaseApiUrl(name, channel));
        if release.Failure? {
          return Failure(ReleaseLookupFailed(release.error));
        }
        var matched := MatchingAssets(release.value, platfile);
        if |matched| == 0 {
          return Failure(AssetNotFound);
        }
        return Success(matched[0].browserDownloadUrl);
      case UrlPrefix(url) =>
        return Success(url + "/" + platfile);
    }

    method DownloadLanguageServer(fs: FileSystem, net: Network) returns (r: Result<(), ProvisionError>)
      modifies fs, net
      ensures Transition(r, World(fs.State(), net.requests)) == Download(this, old(World(fs.State(), net.requests)), net.server)
    {
      if !fs.ExistsSync(extensionStoragePath) {
        var error := fs.MkdirSync(extensionStoragePath);
        if error.Some? {
          return Failure(FileSystemError(error.value, extensionStoragePath));
        }
      }
      if fs.ExistsSync(languageServerDirectory) {
        fs.RimrafSync(languageServerDirectory);
      }
      var platfile := languageServerPackage.platformPath;
      var url := GetDownloadUrl(net, platfile);
      if url.Failure? {
        return Failure(url.error);
      }
      var error := fs.MkdirSync(languageServerDirectory);
      if error.Some? {
        return Failure(FileSystemError(error.value, languageServerDirectory));
      }
      var fetched := HttpsGetFile(net, url.value);
      if fetched.Failure? {
        return Failure(DownloadFailed(fetched.error));
      }
      fs.WriteStream(languageServerZip);
      if fetched.value.Corrupt? {
        return Failure(ExtractionFailed);
      }
      fs.Unzip(languageServerDirectory, fetched.value.entries);
      error := fs.UnlinkSync(languageServerZip);
      return Success(());
    }

    /** Returns the full path to the language server executable, installing it first
        when it is missing. */
    method GetLanguageServer(fs: FileSystem, net: Network) returns (r: Result<string, ProvisionError>)
      modifies fs, net
      ensures Transition(r, World(fs.State(), net.requests)) == Provision(this, old(World(fs.State(), net.requests)), net.server)
    {
      if !fs.ExistsSync(languageServerExe) {
        var downloaded := DownloadLanguageServer(fs, net);
        if downloaded.Failure? {
          return Failure(downloaded.error);
        }
      }
      if platform.operatingSystem != Windows {
        var error := fs.ChmodSync(languageServerExe, "755");
        if error.Some? {
          return Failure(FileSystemError(error.value, languageServerExe));
        }
      }
      return Success(languageServerExe);
    }
  }

  /** `new LanguageServerProvider(...)`, which throws "Platform not supported" when the
      package table has no entry for this process's signature. */
  method CreateLanguageServerProvider(name: string, storagePath: string, packs: map<string, Package>,
                                      repo: Repository, platform: PlatformDetails)
    returns (r: Result<LanguageServerProvider, ProvisionError>)
    ensures r.Failure? <==> Signature(platform) !in packs
    ensures r.Failure? ==> r.error == PlatformNotSupported
    ensures r.Success? ==>
      && fresh(r.value)
      && r.value.languageServerName == name
      && r.value.extensionStoragePath == storagePath
      && r.value.repo == repo
      && r.value.languageServerPackage == packs[Signature(platform)]
      && r.value.platform == platform
  {
    var pkg := LookupPackage(packs, platform);
    if pkg.Failure? {
      return Failure(pkg.error);
    }
    var provider := new LanguageServerProvider(name, storagePath, pkg.value, repo, platform);
    return Success(provider);
  }

  /** Every path created or removed between `before` and `after` is one of the provider's
      own: the storage directory, the server directory or something inside it, or the zip. */
  ghost predicate OwnPathsOnly(p: LanguageServerProvider, before: FsState, after: FsState)
  {
    forall q :: (q in before.paths) != (q in after.paths) ==>
      q == p.extensionStoragePath || q == p.languageServerDirectory || q == p.languageServerZip ||
      IsUnder(q, p.languageServerDirectory)
  }

  /** Where the provider keeps things: the server directory is inside the storage
      directory, the executable inside the server directory, and the zip beside it. */
  lemma ProviderLayout(p: LanguageServerProvider)
    ensures IsUnder(p.languageServerDirectory, p.extensionStoragePath)
    ensures IsUnder(p.languageServerExe, p.languageServerDirectory)
    ensures p.languageServerExe[|p.languageServerDirectory| + 1..] == p.languageServerPackage.executable
    ensures !IsUnder(p.languageServerZip, p.languageServerDirectory)
    ensures p.languageServerZip != p.languageServerDirectory && p.languageServerZip != p.languageServerExe
    ensures p.languageServerZip != p.extensionStoragePath && p.languageServerDirectory != p.extensionStoragePath
  {
    JoinIsUnder(p.extensionStoragePath, "server");
    JoinIsUnder(p.languageServerDirectory, p.languageServerPackage.executable);
    SuffixNotUnder(p.languageServerDirectory, ".zip");
  }

  /** `downloadLanguageServer()`: prepare the directories, resolve the URL, download the
      package to the zip path, extract it into the server directory, delete the zip. */
  function Download(p: LanguageServerProvider, w: World, server: Server): (t: Transition<()>)
    ensures w.requests <= t.after.requests
    ensures OwnPathsOnly(p, w.fs, t.after.fs)
    ensures t.result.Success? ==>
      p.languageServerDirectory in t.after.fs.paths && p.languageServerZip !in t.after.fs.paths
  {
    var storage, dir, zip := p.extensionStoragePath, p.languageServerDirectory, p.languageServerZip;
    var prepared := if storage in w.fs.paths then FsResult(None, w.fs) else Mkdir(w.fs, storage);
    if prepared.error.Some? then Transition(Failure(FileSystemError(prepared.error.value, storage)), w)
    else
      var wiped := if dir in prepared.state.paths then Rimraf(prepared.state, dir) else prepared.state;
      var url := DownloadUrl(p.repo, p.languageServerPackage.platformPath, server);
      var looked := w.requests + UrlLookups(p.repo);
      if url.Failure? then Transition(Failure(url.error), World(wiped, looked))
      else
        var created := Mkdir(wiped, dir);
        if created.error.Some? then Transition(Failure(FileSystemError(created.error.value, dir)), World(wiped, looked))
        else
          var fetched := HttpsGetOutcome(server.file(url.value));
          var requested := looked + [url.value];
          if fetched.Failure? then Transition(Failure(DownloadFailed(fetched.error)), World(created.state, requested))
          else
            var written := WriteFile(created.state, zip);
            match fetched.value
            case Corrupt => Transition(Failure(ExtractionFailed), World(written, requested))
            case Zip(entries) =>
              ProviderLayout(p);
              ExtractedIsUnder(dir, entries);
              var unlinked := Unlink(ExtractInto(written, dir, entries), zip);
              Transition(Success(()), World(unlinked.state, requested))
  }

  /** `getLanguageServer()`: download only when the executable is missing, then make it
      executable except on Windows, and return its path. */
  function Provision(p: LanguageServerProvider, w: World, server: Server): (t: Transition<string>)
    ensures w.requests <= t.after.requests
    ensures OwnPathsOnly(p, w.fs, t.after.fs)
    ensures t.result.Success? ==> t.result.value == p.languageServerExe
    ensures p.languageServerExe in w.fs.paths ==> t.after.requests == w.requests && t.after.fs.paths == w.fs.paths
  {
    var exe := p.languageServerExe;
    var installed := if exe in w.fs.paths then Transition(Success(()), w) else Download(p, w, server);
    if installed.result.Failure? then Transition(Failure(installed.result.error), installed.after)
    else if p.platform.operatingSystem != Windows then
      var changed := Chmod(installed.after.fs, exe, "755");
      if changed.error.Some? then Transition(Failure(FileSystemError(changed.error.value, exe)), installed.after)
      else Transition(Success(exe), installed.after.(fs := changed.state))
    else Transition(Success(exe), installed.after)
  }

  // ---------------------------------------------------------------------------
  // Properties of provisioning
  // ---------------------------------------------------------------------------

  lemma ExtractedIsUnder(dir: string, entries: set<string>)
    ensures forall q :: q in Extracted(dir, entries) ==> IsUnder(q, dir)
  {
  }

  /** A download that gets the package installs exactly the package's tree: the old server
      directory is gone, nothing of a previous install survives, the zip is deleted, and
      the release lookup (if any) and the one package request are the only requests. */
  lemma DownloadInstallsFreshTree(p: LanguageServerProvider, w: World, server: Server, url: string, entries: set<string>)
    requires Rooted(w.fs, p.languageServerDirectory)
    requires p.extensionStoragePath in w.fs.paths || p.extensionStoragePath !in w.fs.unwritable
    requires p.languageServerDirectory !in w.fs.unwritable
    requires DownloadUrl(p.repo, p.languageServerPackage.platformPath, server) == Success(url)
    requires server.file(url) == Response(200, Zip(entries))
    ensures var t := Download(p, w, server);
      && t.result == Success(())
      && t.after.requests == w.requests + UrlLookups(p.repo) + [url]
      && p.extensionStoragePath in t.after.fs.paths
      && p.languageServerDirectory in t.after.fs.paths
      && p.languageServerZip !in t.after.fs.paths
      && (forall q :: IsUnder(q, p.languageServerDirectory) ==>
            (q in t.after.fs.paths <==> q in Extracted(p.languageServerDirectory, entries)))
      && (forall q :: q != p.extensionStoragePath && q != p.languageServerDirectory && q != p.languageServerZip &&
                      !IsUnder(q, p.languageServerDirectory) ==>
            (q in t.after.fs.paths <==> q in w.fs.paths))
  {
    ProviderLayout(p);
    ExtractedIsUnder(p.languageServerDirectory, entries);
  }

  /** A package that extraction rejects fails the download and leaves the zip behind. */
  lemma CorruptPackageKeepsZip(p: LanguageServerProvider, w: World, server: Server, url: string)
    requires p.extensionStoragePath in w.fs.paths || p.extensionStoragePath !in w.fs.unwritable
    requires p.languageServerDirectory !in w.fs.unwritable
    requires DownloadUrl(p.repo, p.languageServerPackage.platformPath, server) == Success(url)
    requires server.file(url) == Response(200, Corrupt)
    ensures var t := Download(p, w, server);
      && t.result == Failure(ExtractionFailed)
      && p.languageServerZip in t.after.fs.paths
      && p.languageServerDirectory in t.after.fs.paths
  {
  }

  /** When no download URL can be resolved, no package request is made and the zip and
      server directory are not created. */
  lemma UnresolvedUrlStopsBeforeDownload(p: LanguageServerProvider, w: World, server: Server)
    requires p.extensionStoragePath in w.fs.paths || p.extensionStoragePath !in w.fs.unwritable
    requires DownloadUrl(p.repo, p.languageServerPackage.platformPath, server).Failure?
    ensures var t := Download(p, w, server);
      && t.result == Failure(DownloadUrl(p.repo, p.languageServerPackage.platformPath, server).error)
      && t.after.requests == w.requests + UrlLookups(p.repo)
      && p.languageServerDirectory !in t.after.fs.paths
      && (p.languageServerZip in t.after.fs.paths <==> p.languageServerZip in w.fs.paths)
  {
    ProviderLayout(p);
  }

  /** With the executable present nothing is downloaded: the result and the effect do not
      depend on the servers, no request is made, and only the executable's mode changes. */
  lemma InstalledSkipsDownload(p: LanguageServerProvider, w: World, s1: Server, s2: Server)
    requires p.languageServerExe in w.fs.paths
    ensures Provision(p, w, s1) == Provision(p, w, s2)
    ensures var t := Provision(p, w, s1);
      && t.result == Success(p.languageServerExe)
      && t.after.requests == w.requests
      && t.after.fs.paths == w.fs.paths
      && t.after.fs.modes == (if p.platform.operatingSystem == Windows then w.fs.modes
                              else w.fs.modes[p.languageServerExe := "755"])
  {
  }

  /** With the executable missing, `getLanguageServer` downloads the package; when that
      goes through and the package holds the executable, it returns the executable, the
      server directory holds exactly the package's tree, and off Windows the executable
      has mode 755. */
  lemma MissingExecutableInstalls(p: LanguageServerProvider, w: World, server: Server, url: string, entries: set<string>)
    requires p.languageServerExe !in w.fs.paths
    requires Rooted(w.fs, p.languageServerDirectory)
    requires p.extensionStoragePath in w.fs.paths || p.extensionStoragePath !in w.fs.unwritable
    requires p.languageServerDirectory !in w.fs.unwritable
    requires DownloadUrl(p.repo, p.languageServerPackage.platformPath, server) == Success(url)
    requires server.file(url) == Response(200, Zip(entries))
    requires p.languageServerPackage.executable in entries
    ensures var t := Provision(p, w, server);
      && t.result == Success(p.languageServerExe)
      && t.after.requests == w.requests + UrlLookups(p.repo) + [url]
      && p.languageServerZip !in t.after.fs.paths
      && p.languageServerExe in t.after.fs.paths
      && (forall q :: IsUnder(q, p.languageServerDirectory) ==>
            (q in t.after.fs.paths <==> q in Extracted(p.languageServerDirectory, entries)))
      && (p.platform.operatingSystem != Windows ==> t.after.fs.modes[p.languageServerExe] == "755")
  {
    DownloadInstallsFreshTree(p, w, server, url, entries);
    ProviderLayout(p);
    assert p.languageServerExe in Extracted(p.languageServerDirectory, entries);
  }

  /** A successful `getLanguageServer` returns the executable inside the server directory,
      at the package's relative path; off Windows that file exists with mode 755. */
  lemma ProvisionResult(p: LanguageServerProvider, w: World, server: Server)
    ensures var t := Provision(p, w, server);
      t.result.Success? ==>
        && t.result.value == p.languageServerExe
        && IsUnder(t.result.value, p.languageServerDirectory)
        && t.result.value[|p.languageServerDirectory| + 1..] == p.languageServerPackage.executable
        && (p.platform.operatingSystem != Windows ==>
              t.result.value in t.after.fs.paths && t.after.fs.modes[t.result.value] == "755")
  {
  }

  /** Calling `getLanguageServer` again after it succeeded, with the executable in place,
      returns the same path and changes nothing, whatever the servers would answer. */
  lemma ProvisionIdempotent(p: LanguageServerProvider, w: World, s1: Server, s2: Server)
    requires Provision(p, w, s1).result.Success?
    requires p.languageServerExe in Provision(p, w, s1).after.fs.paths
    ensures var t := Provision(p, w, s1);
      Provision(p, t.after, s2) == Transition(Success(p.languageServerExe), t.after)
  {
  }
}
