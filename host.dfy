/** The host services the provisioner drives through Node: the filesystem and HTTPS.
    Both are abstract: a filesystem is the set of paths that exist plus the permission
    modes set on them, and the network is a fixed answer per URL plus a log of the
    URLs requested. */
module Host {
  import opened Wrappers
  import opened Paths

  /** The error codes a Node filesystem call can throw that the model distinguishes. */
  datatype ErrorCode = EEXIST | ENOENT | EACCES

  /** A snapshot of the filesystem. `unwritable` are the paths the process may not
      create; it stands for every reason other than "already exists" for `mkdir` to fail. */
  datatype FsState = FsState(paths: set<string>, modes: map<string, string>, unwritable: set<string>)

  /** What a filesystem call threw, if anything, and the filesystem afterwards. */
  datatype FsResult = FsResult(error: Option<ErrorCode>, state: FsState)

  /** `fs.mkdirSync(p)`. */
  function Mkdir(s: FsState, p: string): FsResult
  {
    if p in s.paths then FsResult(Some(EEXIST), s)
    else if p in s.unwritable then FsResult(Some(EACCES), s)
    else FsResult(None, s.(paths := s.paths + {p}))
  }

  /** `rimraf.sync(dir)`: `dir` and everything under it are gone. */
  function Rimraf(s: FsState, dir: string): FsState
  {
    s.(paths := (set q | q in s.paths && q != dir && !IsUnder(q, dir)),
       modes := (map q | q in s.modes && q != dir && !IsUnder(q, dir) :: s.modes[q]))
  }

  /** A write stream to `p` that runs to completion: `p` exists afterwards. */
  function WriteFile(s: FsState, p: string): FsState
  {
    s.(paths := s.paths + {p})
  }

  /** The paths that unpacking an archive with the given entries into `dir` creates. */
  function Extracted(dir: string, entries: set<string>): set<string>
  {
    set e | e in entries :: Join(dir, e)
  }

  /** Unpacking an archive with the given entries into `dir`. */
  function ExtractInto(s: FsState, dir: string, entries: set<string>): FsState
  {
    s.(paths := s.paths + Extracted(dir, entries))
  }

  /** `fs.unlinkSync(p)`. */
  function Unlink(s: FsState, p: string): FsResult
  {
    if p !in s.paths then FsResult(Some(ENOENT), s)
    else FsResult(None, s.(paths := s.paths - {p}, modes := s.modes - {p}))
  }

  /** `fs.chmodSync(p, mode)`. */
  function Chmod(s: FsState, p: string, mode: string): FsResult
  {
    if p !in s.paths then FsResult(Some(ENOENT), s)
    else FsResult(None, s.(modes := s.modes[p := mode]))
  }

  /** The process's view of the filesystem, changed in place by the `fs` calls. */
  class FileSystem {
    var paths: set<string>
    var modes: map<string, string>
    const unwritable: set<string>

    function State(): FsState
      reads this
    {
      FsState(paths, modes, unwritable)
    }

    constructor (paths: set<string>, modes: map<string, string>, unwritable: set<string>)
      ensures State() == FsState(paths, modes, unwritable)
    {
      this.paths := paths;
      this.modes := modes;
      this.unwritable := unwritable;
    }

    /** `fs.existsSync(p)`. */
    predicate ExistsSync(p: string)
      reads this
    {
      p in paths
    }

    method MkdirSync(p: string) returns (error: Option<ErrorCode>)
      modifies this
      ensures FsResult(error, State()) == Mkdir(old(State()), p)
    {
      var r := Mkdir(State(), p);
      paths, modes, error := r.state.paths, r.state.modes, r.error;
    }

    method RimrafSync(dir: string)
      modifies this
      ensures State() == Rimraf(old(State()), dir)
    {
      var s := Rimraf(State(), dir);
      paths, modes := s.paths, s.modes;
    }

    method WriteStream(p: string)
      modifies this
      ensures State() == WriteFile(old(State()), p)
    {
      paths := paths + {p};
    }

    method Unzip(dir: string, entries: set<string>)
      modifies this
      ensures State() == ExtractInto(old(State()), dir, entries)
    {
      paths := paths + Extracted(dir, entries);
    }

    method UnlinkSync(p: string) returns (error: Option<ErrorCode>)
      modifies this
      ensures FsResult(error, State()) == Unlink(old(State()), p)
    {
      var r := Unlink(State(), p);
      paths, modes, error := r.state.paths, r.state.modes, r.error;
    }

    method ChmodSync(p: string, mode: string) returns (error: Option<ErrorCode>)
      modifies this
      ensures FsResult(error, State()) == Chmod(old(State()), p, mode)
    {
      var r := Chmod(State(), p, mode);
      paths, modes, error := r.state.paths, r.state.modes, r.error;
    }
  }

  /** One asset of a GitHub release, as the releases API lists it. */
  datatype Asset = Asset(name: string, browserDownloadUrl: string)

  /** A downloaded package: either an archive that unpacks to the given relative
      paths, or one that extraction rejects. */
  datatype Archive = Corrupt | Zip(entries: set<string>)

  /** What an HTTPS GET yields: a status code with a body, or a request error. */
  datatype Response<T> = Response(statusCode: int, body: T) | RequestError

  /** The answers of the remote servers: the parsed asset list of a release-metadata
      request, and the package a file request streams. */
  datatype Server = Server(release: string -> Response<seq<Asset>>, file: string -> Response<Archive>)

  /** The network as the process sees it: fixed answers, and the URLs requested so far. */
  class Network {
    const server: Server
    var requests: seq<string>

    constructor (server: Server)
      ensures requests == []
    {
      this.server := server;
      requests := [];
    }

    method GetRelease(url: string) returns (r: Response<seq<Asset>>)
      modifies this
      ensures r == server.release(url)
      ensures requests == old(requests) + [url]
    {
      r := server.release(url);
      requests := requests + [url];
    }

    method GetFile(url: string) returns (r: Response<Archive>)
      modifies this
      ensures r == server.file(url)
      ensures requests == old(requests) + [url]
    {
      r := server.file(url);
      requests := requests + [url];
    }
  }
}
