# coc-utils core, modelled in Dafny

This project models the logic of the `coc-utils` editor-integration library (`platform.ts`,
`repl.ts`, `utils.ts`) and proves properties of it. The library does three things:

- **Language-server provisioning** (`platform.ts`). It computes a platform signature such as
  `linux-x64` and looks it up in a package table. It derives the server directory, zip and
  executable paths. It resolves a download URL from a GitHub release or a URL prefix. When the
  executable is missing, it wipes the old server directory, downloads the package, extracts it
  and deletes the zip. Off Windows it then sets mode `755` on the executable.
- **The F# REPL session** (`repl.ts`). A `REPLProcess` owns at most one editor terminal and one
  close listener. The module-level `currentREPL` is created on demand by `doEval`. `doEval` sends
  the selected lines one by one and then the `;;` terminator, and the REPL's exit clears
  `currentREPL`.
- **Helpers** (`utils.ts`): the HTTPS status decision, `ensurePathExists`, `getPipePath`,
  `getTimestampString`, `isWindowsOS` and `getCurrentSelection`.

Host services are abstract:

- The filesystem (module `Host`) is a set of existing paths, a map of permission modes, and a
  set of paths the process may not create. `FileSystem` is a class whose methods (`MkdirSync`,
  `RimrafSync`, `WriteStream`, `Unzip`, `UnlinkSync`, `ChmodSync`) change that state in place.
  Each method is proved equal to a pure step function.
- The network (`Host.Network`) answers each URL with a fixed response and logs every URL
  requested. The log lets "no request is made" be stated.
- The editor (`Editor.Workspace`) hands out terminal and listener handles and records every
  create, send, show and dispose in an event log. The log lets the order of effects be stated.
  Whether the editor can open a terminal is a field of the workspace; when it cannot, the
  `createTerminal` promise rejects.
- Process facts (`process.platform`, `process.arch`, the `PROCESSOR_ARCHITEW6432` variable,
  `os.tmpdir()`) and the clock (hours, minutes, seconds) are parameters.

Layout:

| file | module | models |
|---|---|---|
| `wrappers.dfy` | `Wrappers` | `Option`, `Result` |
| `paths.dfy` | `Paths` | `path.join` for two segments, "inside a directory" |
| `host.dfy` | `Host` | filesystem and network abstractions |
| `utils.dfy` | `Utils` | `utils.ts` |
| `platform.dfy` | `Platform` | `platform.ts` |
| `editor.dfy` | `Editor` | the editor's terminal API |
| `repl.dfy` | `Repl` | `repl.ts` |

Provisioning is specified by two pure functions over a `World`, which is the filesystem
snapshot plus the request log. `Platform.Download` models `downloadLanguageServer` and
`Platform.Provision` models `getLanguageServer`. The provider's methods are proved equal to
them, and the lemmas state what these functions guarantee.

Behaviour of the code worth noting:

- If extraction fails, the zip is not deleted (`CorruptPackageKeepsZip`).
- A failing `chmod` rejects `getLanguageServer`. It is not a warning.
- `onExited` fires on every close of the REPL's own terminal. Nothing limits it to once.
- There is no per-tool mutual exclusion and no timeout.
- When the editor cannot open a terminal, `start` rejects but `createREPL` has already made the
  new REPL current. That REPL has no terminal and no close listener, so it never exits, and
  every later `doEval` skips `createREPL` and sends nothing (see "## Findings").

## Model

| member | source | states |
|---|---|---|
| `Utils.HttpsGetOutcome` | utils.ts:99-105 | the body is delivered exactly when the status is 200; any other status rejects with that status; a request error rejects |
| `Utils.HttpsGetJson` | utils.ts:112-120 | issues exactly one request to the URL and applies the status decision to the parsed release |
| `Utils.HttpsGetFile` | utils.ts:92-110 | issues exactly one request to the URL and applies the status decision to the package |
| `Utils.EnsurePath` | utils.ts:26-36 | succeeds exactly when the path already existed or may be created; on success the path exists and nothing else was created; a failure is never EEXIST and changes nothing |
| `Utils.EnsurePathExists` | utils.ts:26-36 | the `mkdir` call with EEXIST swallowed and other errors passed on, equal to `EnsurePath` on the filesystem before and after |
| `Utils.EnsurePathIdempotent` | utils.ts:26-36 | a second call of the same path reports the same outcome and leaves the same filesystem as the first |
| `Utils.GetPipePath` | utils.ts:38-45 | on win32 the `\\.\pipe\` prefix followed by the pipe name; elsewhere a path inside the temporary directory named `CoreFxPipe_` + pipe name |
| `Utils.GetPipePathInjective` | utils.ts:38-45 | different pipe names that contain no `/` never yield the same pipe path |
| `Utils.IsWindowsOS` | utils.ts:62-64 | true exactly when the platform is `win32` |
| `Utils.NatToString` | utils.ts:59 | an integer renders as decimal digits without leading zeros, and the digits denote the integer |
| `Utils.GetTimestampString` | utils.ts:57-60 | the stamp is `[`, hours, `:`, minutes, `:`, seconds, `]`, each field in unpadded decimal digits that denote its number |
| `Utils.TimestampInjective` | utils.ts:57-60 | the unpadded `[h:m:s]` stamp determines hours, minutes and seconds |
| `Utils.Selection` | utils.ts:66-90 | in `v`/`V` mode element k is buffer line from-1+k, with to-from+1 elements or none when from > to; in `n` mode the cursor line alone; in any other mode nothing |
| `Utils.GetCurrentSelection` | utils.ts:66-90 | in `v`/`V` mode element k is buffer line from-1+k, with to-from+1 elements or none when from > to; with both marks inside the buffer this is the slice of lines from..to; in `n` mode the cursor line alone; in any other mode nothing |
| `Platform.GetPlatformDetails` | platform.ts:29-47 | `win32`, `darwin` and `linux` map to Windows, MacOS and Linux and everything else to Unknown; the process is 64-bit exactly for arch `x64`; the OS is 64-bit when the process is or the WOW64 variable is set |
| `Platform.GetPlatformSignature` | platform.ts:49-67 | total; an OS part in {win, linux, osx, unknown} chosen by the platform, a `-`, and `x64` exactly for arch `x64`, else `x86` |
| `Platform.ParseSignatureInverts` | platform.ts:49-67 | the signature can be read back into the operating system and the process width |
| `Platform.SignatureInjective` | platform.ts:49-67 | two platforms share a signature exactly when their operating systems and process widths agree |
| `Platform.LookupPackage` | platform.ts:102-107 | fails with "platform not supported" exactly when the table has no entry for the signature, and otherwise yields that entry |
| `Platform.CreateLanguageServerProvider` | platform.ts:101-112 | throws "platform not supported" exactly when the signature is not in the table; otherwise a new provider holding the name, storage path, repository and the signature's package |
| `Platform.LanguageServerProvider.constructor` | platform.ts:101-112 | records name, storage path, package and repository; the three paths are derived from them |
| `Platform.ProviderLayout` | platform.ts:109-111 | the server directory is inside the storage path, the executable is the package's relative path inside the server directory, and the zip is outside it and distinct from every other path |
| `Platform.MatchingAssets` | platform.ts:123 | the filtered list holds exactly the assets whose name equals the package file name |
| `Platform.FirstMatchingAsset` | platform.ts:123-124 | index 0 of the filtered list is the first asset whose name matches |
| `Platform.DownloadUrlAsWritten` | platform.ts:115-121 | every GitHub lookup throws before its request because `https` is not bound; a URL prefix gives the same URL as `DownloadUrl` |
| `Platform.ListedAssetUnreachableAsWritten` | platform.ts:115-124 | for a release that lists the package, `DownloadUrl` yields the asset's URL while the lookup as written fails |
| `Platform.DownloadUrl` | platform.ts:114-129 | for a URL prefix exactly prefix + "/" + file; for GitHub a failed metadata request fails the lookup, and otherwise it succeeds exactly when some asset's name equals the file name, giving the first such asset's download URL |
| `Platform.LanguageServerProvider.GetDownloadUrl` | platform.ts:114-129 | returns `DownloadUrl` and requests `https://api.github.com/repos/{repo}/releases/{channel}` for GitHub and nothing for a URL prefix |
| `Platform.LanguageServerProvider.DownloadLanguageServer` | platform.ts:131-165 | the sequence of filesystem and network steps yields the result and the world `Download` specifies |
| `Platform.Download` | platform.ts:131-165 | requests are only appended; every path created or removed is the storage directory, the server directory or inside it, or the zip; on success the server directory exists and the zip does not |
| `Platform.Provision` | platform.ts:168-182 | requests are only appended; only the provider's own paths are created or removed; a success returns the executable path; with the executable present no request is made and no path changes |
| `Platform.DownloadInstallsFreshTree` | platform.ts:137-163 | when the package is available, the download succeeds; storage and server directories exist; the zip is gone; inside the server directory exactly the extracted paths exist; nothing outside it changes; the only requests are the URL lookup and the one package fetch |
| `Platform.CorruptPackageKeepsZip` | platform.ts:156-163 | when extraction rejects the package, the download fails and the zip stays behind |
| `Platform.UnresolvedUrlStopsBeforeDownload` | platform.ts:141-148 | when no URL resolves, the error is the lookup's, no package request is made, and the server directory and zip are not created |
| `Platform.LanguageServerProvider.GetLanguageServer` | platform.ts:168-182 | yields the result and the world `Provision` specifies |
| `Platform.InstalledSkipsDownload` | platform.ts:172-181 | with the executable present nothing depends on the servers and no request is made; it returns the executable; only its mode changes, to 755 and only off Windows |
| `Platform.MissingExecutableInstalls` | platform.ts:172-181 | with the executable missing and the package available and holding it, the call downloads: it returns the executable, the only requests are the URL lookup and the package fetch, the zip is gone, the server directory holds exactly the package's tree, and off Windows the executable has mode 755 |
| `Platform.ProvisionResult` | platform.ts:176-181 | a success returns the executable path inside the server directory at the package's relative path; off Windows that file exists with mode 755 |
| `Platform.ProvisionIdempotent` | platform.ts:168-182 | after a success that left the executable in place, calling again returns the same path and changes nothing, whatever the servers answer |
| `Repl.REPLProcess.constructor` | repl.ts:18-21 | a new process holds no terminal and no listener and has not exited |
| `Repl.REPLProcess.Start` | repl.ts:23-47 | without a terminal, creates exactly one terminal named by the title, running the program with its arguments, then one close listener; when the editor cannot open a terminal, rejects and holds neither; with a terminal, only shows it with focus preserved |
| `Repl.REPLProcess.OnTerminalClosed` | repl.ts:40-46 | fires `onExited` once per call exactly when the closed terminal is this process's own |
| `Repl.REPLProcess.ShowConsole` | repl.ts:49-53 | shows the terminal with the given focus flag when there is one, and otherwise does nothing |
| `Repl.REPLProcess.Eval` | repl.ts:55-59 | sends the line to the terminal when there is one, and otherwise does nothing |
| `Repl.REPLProcess.Dispose` | repl.ts:67-79 | disposes the close listener before the terminal; afterwards neither is held; with neither held nothing happens |
| `Repl.ReplModule.constructor` | repl.ts:82 | no REPL is current at first |
| `Repl.ReplModule.CreateREPL` | repl.ts:83-94 | disposes any current REPL first, then makes a fresh `F# REPL` running `dotnet fsi --readline+` current and starts it; it rejects exactly when the editor cannot open a terminal, and the new REPL then stays current holding nothing |
| `Repl.ReplModule.CreateREPLOrReset` | repl.ts:83-94 | as `createREPL`, but a REPL whose start rejected is dropped, so a current REPL always holds a terminal and a close listener |
| `Repl.ReplModule.TerminalClosed` | repl.ts:39-46 | when the current REPL's own terminal closes, its exit fires and `currentREPL` is cleared, and the exited REPL keeps its terminal and listener; any other terminal closing changes nothing |
| `Repl.SendBlock` | repl.ts:110-114 | with a terminal, one send per selected line in their original order, then exactly one `;;`, all to that terminal; without one, nothing |
| `Repl.ReplModule.DoEval` | repl.ts:97-114 | without an F# document nothing happens; otherwise a REPL is created only if none is current; if its start rejects, `doEval` rejects and nothing is sent; otherwise each selected line is sent in order, followed by exactly one `;;`, to the current REPL's terminal if it has one |
| `Repl.StuckAfterFailedStart` | repl.ts:83-106 | after a start that rejected, a later `doEval` sends nothing and the terminal-less REPL stays current, even when terminals can be opened again |
| `Repl.RecoversAfterFailedStart` | repl.ts:83-114 | with the failed start undone, the next `doEval` starts the REPL and sends the selection and `;;` |

## Findings

| source | as written | input that shows it | evidently intended | confidence | as-written member | corrected member |
|---|---|---|---|---|---|---|
| platform.ts:120 | `new https.Agent()` although only 'http' is imported, so the GitHub branch throws a ReferenceError before any request | any GitHub repository, for instance a release listing `server-linux-x64.zip` | an HTTPS agent, so the release metadata is fetched | medium (a bundler could supply a global `https`); not executed | `Platform.DownloadUrlAsWritten`, `Platform.ListedAssetUnreachableAsWritten` | `Platform.DownloadUrl` |
| repl.ts:88-92 | `currentREPL` is set before `start()`, and a rejected `createTerminal` leaves it set with no terminal | an editor that cannot open a terminal at the first `doEval` | drop the REPL when its start fails, so the next `doEval` tries again | medium; not executed | `Repl.StuckAfterFailedStart` | `Repl.ReplModule.CreateREPLOrReset`, `Repl.RecoversAfterFailedStart` |

The provisioning model uses `Platform.DownloadUrl`. With the lookup as written, a GitHub install
would wipe the server directory and then fail without issuing any request. `Repl.ReplModule.DoEval` keeps the code's
`createREPL`, so the stuck state it leads to stays visible.

## Left out

- Status bar items, output-channel logging, `scrollToBottom` (with `sleep` and `wincmd`) and the `feedkeys` call are editor cosmetics with no state the core reads.
- `fileURLToPath` and `checkIfFileExists` are thin wrappers over foreign calls with nothing to verify.
- Real network I/O is not modelled: proxy tunnels, redirects, the user-agent header and streaming. Each URL has one fixed answer. A request error is one `RequestError` response.
- `httpsGetJson`'s JSON parsing is not modelled. A release is given as its parsed list of assets.
- ZIP extraction and `rimraf` internals are not modelled. Extraction adds the package's entries under the server directory or rejects the package. `rimraf` removes a directory and every path under it.
- Utils.GetPipePathInjective: stated only for pipe names without `/`, because `path.join` normalises `..` and repeated separators, so names such as `a/../x` and `b/../x` collide.
- `path.join` is modelled as the two segments joined by "/". Normalisation of `..`, repeated or trailing separators, and the Windows separator are not modelled.
- A `mkdir` error other than EEXIST is modelled as EACCES for paths the process may not create. A missing parent directory (ENOENT) is not modelled separately.
- Platform.Download: failures of the zip write stream and of the final `unlinkSync` are not modelled. The write always succeeds, and the unlink cannot fail because the zip was just written and extraction only adds paths inside the server directory.
- The "unsupported repo kind" throw of `getDownloadUrl` cannot be reached, because `Repository` has only the two kinds.
- `packs[platsig]` is a map lookup. JavaScript's inherited object properties are not modelled.
- A provider keeps the `PlatformDetails` it was built with. `getLanguageServer` reads the same process values again in the source.
- Operations run without interleaving. An exit that fires between the awaits of `doEval` would make the source's `currentREPL.eval` throw; that is not modelled.
- Close events reach only the current REPL's listener. A REPL that already exited keeps its listener registered in the source, but its terminal has already closed and cannot close again.
- `createREPL` returns the `onExited` event, which its only caller ignores, so the model returns nothing.
- Mutual exclusion between concurrent installs, timeouts, error wrapping and an exactly-once exit guarantee are hardening the code does not have.
