/** The helpers of the extension's `utils` module: the HTTPS status decision, directory
    creation that tolerates an existing directory, pipe paths, time stamps, the Windows
    test and reading the current selection out of an editor buffer. */
module Utils {
  import opened Wrappers
  import opened Paths
  import opened Host

  // ---------------------------------------------------------------------------
  // httpsGet
  // ---------------------------------------------------------------------------

  /** Why an HTTPS GET rejected: a status other than 200, or the request itself failed. */
  datatype HttpError = InvalidResponse(statusCode: int) | RequestFailed

  /** The decision `httpsGet` makes on a response: the callback sees the body only for
      status 200; every other status rejects, and so does a request error. */
  function HttpsGetOutcome<T>(r: Response<T>): (res: Result<T, HttpError>)
    ensures res.Success? <==> r.Response? && r.statusCode == 200
    ensures res.Success? ==> res.value == r.body
    ensures r.Response? && r.statusCode != 200 ==> res == Failure(InvalidResponse(r.statusCode))
    ensures r.RequestError? ==> res == Failure(RequestFailed)
  {
    match r
    case RequestError => Failure(RequestFailed)
    case Response(code, body) =>
      if code != 200 then Failure(InvalidResponse(code)) else Success(body)
  }

  /** `httpsGetJson` on a release-metadata URL: one request, then the status decision. */
  method HttpsGetJson(net: Network, url: string) returns (r: Result<seq<Asset>, HttpError>)
    modifies net
    ensures r == HttpsGetOutcome(net.server.release(url))
    ensures net.requests == old(net.requests) + [url]
  {
    var response := net.GetRelease(url);
    r := HttpsGetOutcome(response);
  }

  /** `httpsGet` on a package URL whose callback streams the body to a file. */
  method HttpsGetFile(net: Network, url: string) returns (r: Result<Archive, HttpError>)
    modifies net
    ensures r == HttpsGetOutcome(net.server.file(url))
    ensures net.requests == old(net.requests) + [url]
  {
    var response := net.GetFile(url);
    r := HttpsGetOutcome(response);
  }

  // ---------------------------------------------------------------------------
  // ensurePathExists
  // ---------------------------------------------------------------------------

  /** `ensurePathExists(p)`: `mkdir`, with "already exists" swallowed and every other
      error passed on. */
  function EnsurePath(s: FsState, p: string): (r: FsResult)
    ensures r.error.None? <==> p in s.paths || p !in s.unwritable
    ensures r.error.None? ==> r.state.paths == s.paths + {p}
    ensures r.error.Some? ==> r.error.value != EEXIST && r.state == s
    ensures r.state.modes == s.modes && r.state.unwritable == s.unwritable
  {
    var made := Mkdir(s, p);
    if made.error == Some(EEXIST) then FsResult(None, made.state) else made
  }

  method EnsurePathExists(fs: FileSystem, p: string) returns (error: Option<ErrorCode>)
    modifies fs
    ensures FsResult(error, fs.State()) == EnsurePath(old(fs.State()), p)
  {
    error := fs.MkdirSync(p);
    if error.Some? && error.value == EEXIST {
      error := None;
    }
  }

  /** A second `ensurePathExists` of the same path changes nothing and reports what the
      first one reported. */
  lemma EnsurePathIdempotent(s: FsState, p: string)
    ensures EnsurePath(EnsurePath(s, p).state, p) == EnsurePath(s, p)
  {
  }

  // ---------------------------------------------------------------------------
  // getPipePath, isWindowsOS
  // ---------------------------------------------------------------------------

  /** The Windows named-pipe namespace, `\\.\pipe\`. */
  const WindowsPipePrefix: string := "\\\\.\\pipe\\"

  /** `getPipePath(pipeName)` on a host whose `os.platform()` is `platform` and whose
      `os.tmpdir()` is `tmpdir`. */
  function GetPipePath(platform: string, tmpdir: string, pipeName: string): (r: string)
    ensures platform == "win32" ==> r == WindowsPipePrefix + pipeName
    ensures platform != "win32" ==> IsUnder(r, tmpdir) && r[|tmpdir| + 1..] == "CoreFxPipe_" + pipeName
  {
    if platform == "win32" then WindowsPipePrefix + pipeName
    else
      JoinIsUnder(tmpdir, "CoreFxPipe_" + pipeName);
      Join(tmpdir, "CoreFxPipe_" + pipeName)
  }

  /** Different pipe names never share a pipe path, for names without a separator: then
      `CoreFxPipe_` + name is one plain segment that `path.join` leaves as it is. */
  lemma GetPipePathInjective(platform: string, tmpdir: string, a: string, b: string)
    requires forall i :: 0 <= i < |a| ==> a[i] != '/'
    requires forall i :: 0 <= i < |b| ==> b[i] != '/'
    requires GetPipePath(platform, tmpdir, a) == GetPipePath(platform, tmpdir, b)
    ensures a == b
  {
    var r := GetPipePath(platform, tmpdir, a);
    if platform == "win32" {
      assert a == r[|WindowsPipePrefix|..];
      assert b == r[|WindowsPipePrefix|..];
    } else {
      var prefix := "CoreFxPipe_";
      assert a == r[|tmpdir| + 1 + |prefix|..];
      assert b == r[|tmpdir| + 1 + |prefix|..];
    }
  }

  /** `isWindowsOS()` on a host whose `os.platform()` is `platform`. */
  function IsWindowsOS(platform: string): (b: bool)
    ensures b <==> platform == "win32"
  {
    platform == "win32"
  }

  // ---------------------------------------------------------------------------
  // getTimestampString
  // ---------------------------------------------------------------------------

  predicate IsDigit(c: char)
  {
    '0' <= c <= '9'
  }

  predicate AllDigits(s: string)
  {
    forall i :: 0 <= i < |s| ==> IsDigit(s[i])
  }

  /** The number a string of decimal digits denotes. */
  function DigitsValue(s: string): nat
    requires AllDigits(s)
  {
    if s == [] then 0 else DigitsValue(s[..|s| - 1]) * 10 + (s[|s| - 1] as int - '0' as int)
  }

  /** JavaScript's conversion of a non-negative integer to text inside a template literal:
      decimal digits, no padding. */
  function NatToString(n: nat): (s: string)
    ensures |s| >= 1 && AllDigits(s)
    ensures s[0] == '0' ==> n == 0 && |s| == 1
    ensures DigitsValue(s) == n
  {
    if n < 10 then [('0' as int + n) as char]
    else
      var init := NatToString(n / 10);
      var s := init + [('0' as int + n % 10) as char];
      assert s[..|s| - 1] == init;
      s
  }

  /** `getTimestampString()` for a clock reading `hours:minutes:seconds`. */
  function GetTimestampString(hours: nat, minutes: nat, seconds: nat): (r: string)
    ensures |r| >= 7 && r[0] == '[' && r[|r| - 1] == ']'
    ensures r == "[" + NatToString(hours) + ":" + NatToString(minutes) + ":" + NatToString(seconds) + "]"
  {
    "[" + NatToString(hours) + ":" + NatToString(minutes) + ":" + NatToString(seconds) + "]"
  }

  lemma ColonAfter(a: string, x: string)
    ensures (a + ":" + x)[|a|] == ':'
    ensures forall i :: 0 <= i < |a| ==> (a + ":" + x)[i] == a[i]
  {
  }

  /** Splitting at the first ':' recovers both halves when the head has no ':'. */
  lemma SplitAtColon(a: string, x: string, b: string, y: string)
    requires AllDigits(a) && AllDigits(b)
    requires a + ":" + x == b + ":" + y
    ensures a == b && x == y
  {
    var l, r := a + ":" + x, b + ":" + y;
    ColonAfter(a, x);
    ColonAfter(b, y);
    assert |a| == |b|;
    assert a == l[..|a|] && b == r[..|b|];
    assert x == l[|a| + 1..] && y == r[|b| + 1..];
  }

  /** The three digit fields of a bracketed `h:m:s` text are determined by the text. */
  lemma FieldsDetermined(a: string, b: string, c: string, a': string, b': string, c': string)
    requires AllDigits(a) && AllDigits(b) && AllDigits(c)
    requires AllDigits(a') && AllDigits(b') && AllDigits(c')
    requires "[" + a + ":" + b + ":" + c + "]" == "[" + a' + ":" + b' + ":" + c' + "]"
    ensures a == a' && b == b' && c == c'
  {
    var t := "[" + a + ":" + b + ":" + c + "]";
    assert a + ":" + (b + ":" + (c + "]")) == t[1..];
    assert a' + ":" + (b' + ":" + (c' + "]")) == t[1..];
    SplitAtColon(a, b + ":" + (c + "]"), a', b' + ":" + (c' + "]"));
    SplitAtColon(b, c + "]", b', c' + "]");
    assert c == (c + "]")[..|c|];
    assert c' == (c' + "]")[..|c'|];
  }

  /** Distinct clock readings give distinct time stamps: no padding loses information. */
  lemma TimestampInjective(h: nat, m: nat, s: nat, h': nat, m': nat, s': nat)
    requires GetTimestampString(h, m, s) == GetTimestampString(h', m', s')
    ensures h == h' && m == m' && s == s'
  {
    FieldsDetermined(NatToString(h), NatToString(m), NatToString(s),
                     NatToString(h'), NatToString(m'), NatToString(s'));
  }

  // ---------------------------------------------------------------------------
  // getCurrentSelection
  // ---------------------------------------------------------------------------

  /** `doc.getline(i)`: the buffer line with 0-based index `i`, or "" outside the buffer. */
  function Getline(lines: seq<string>, i: int): string
  {
    if 0 <= i < |lines| then lines[i] else ""
  }

  /** The lines `getCurrentSelection(mode)` returns, for a buffer `lines` whose visual
      marks `<` and `>` are on lines `selStart` and `selEnd` and whose cursor is on
      line `cursorLine` (all 1-based). */
  function Selection(mode: string, lines: seq<string>, selStart: int, selEnd: int, cursorLine: int): (r: seq<string>)
    ensures mode == "v" || mode == "V" ==>
      && |r| == (if selStart <= selEnd then selEnd - selStart + 1 else 0)
      && forall k :: 0 <= k < |r| ==> r[k] == Getline(lines, selStart - 1 + k)
    ensures mode == "n" ==> r == [Getline(lines, cursorLine - 1)]
    ensures mode != "v" && mode != "V" && mode != "n" ==> r == []
  {
    if mode == "v" || mode == "V" then
      var n := if selStart <= selEnd then selEnd - selStart + 1 else 0;
      seq(n, k => Getline(lines, selStart - 1 + k))
    else if mode == "n" then [Getline(lines, cursorLine - 1)]
    else []
  }

  method GetCurrentSelection(mode: string, lines: seq<string>, selStart: int, selEnd: int, cursorLine: int)
    returns (result: seq<string>)
    ensures result == Selection(mode, lines, selStart, selEnd, cursorLine)
    ensures mode == "v" || mode == "V" ==>
      && |result| == (if selStart <= selEnd then selEnd - selStart + 1 else 0)
      && forall k :: 0 <= k < |result| ==> result[k] == Getline(lines, selStart - 1 + k)
    ensures (mode == "v" || mode == "V") && 1 <= selStart <= selEnd + 1 <= |lines| + 1 ==>
      result == lines[selStart - 1..selEnd]
    ensures mode == "n" ==> result == [Getline(lines, cursorLine - 1)]
    ensures mode != "v" && mode != "V" && mode != "n" ==> result == []
  {
    if mode == "v" || mode == "V" {
      result := [];
      var i := selStart;
      while i <= selEnd
        invariant selStart <= i <= if selStart <= selEnd then selEnd + 1 else selStart
        invariant |result| == i - selStart
        invariant forall k :: 0 <= k < |result| ==> result[k] == Getline(lines, selStart - 1 + k)
      {
        result := result + [Getline(lines, i - 1)];
        i := i + 1;
      }
      return;
    } else if mode == "n" {
      return [Getline(lines, cursorLine - 1)];
    } else if mode == "i" {
      // insert mode selects nothing
    } else if mode == "t" {
      // terminal mode selects nothing
    }
    return [];
  }
}
