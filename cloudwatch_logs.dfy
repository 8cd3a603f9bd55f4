/**
 * The CloudWatch Logs check: an incremental scan of one log group for a
 * filter pattern, resumed from a persisted cursor, followed by a threshold
 * evaluation of the number of matching lines.
 *
 * Outside collaborators are passed in as values: the state store as the
 * outcome of loading and of saving, the `FilterLogEvents` service as the
 * sequence of its page responses in the order they are served, the clock
 * as the current Unix time in whole seconds, and md5 as a function.
 */
module CloudWatchLogs {
  import opened Wrappers
  import Decimal

  /* ---------------------------------------------------------------------
   * Options
   * ------------------------------------------------------------------- */

  /** The options the scan and the evaluation read. */
  datatype Options = Options(
    logGroupName: string,
    pattern: string,
    warningOver: int,
    criticalOver: int,
    returnContent: bool)

  /* ---------------------------------------------------------------------
   * State file naming
   * ------------------------------------------------------------------- */

  type Byte = b: int | 0 <= b < 256

  /** An md5 sum: sixteen bytes. */
  type Digest = s: seq<Byte> | |s| == 16 witness [0, 0, 0, 0, 0, 0, 0, 0, 0, 0, 0, 0, 0, 0, 0, 0]

  /** The characters the pattern `[^-a-zA-Z0-9_.]` does not match. */
  predicate AllowedInName(c: char) {
    c == '-' || ('a' <= c <= 'z') || ('A' <= c <= 'Z') || ('0' <= c <= '9') || c == '_' || c == '.'
  }

  /** Every character outside the allowed set becomes `_`, one for one. */
  function ReplaceDisallowed(s: string): (r: string)
    ensures |r| == |s|
    ensures forall i :: 0 <= i < |s| ==> r[i] == if AllowedInName(s[i]) then s[i] else '_'
  {
    if s == [] then [] else [if AllowedInName(s[0]) then s[0] else '_'] + ReplaceDisallowed(s[1..])
  }

  /** `strings.TrimLeft(s, "_")`: drops the leading run of underscores and nothing else. */
  function TrimLeadingUnderscores(s: string): (r: string)
    ensures |r| <= |s| && r == s[|s| - |r|..]
    ensures forall i :: 0 <= i < |s| - |r| ==> s[i] == '_'
    ensures r == [] || r[0] != '_'
  {
    if s != [] && s[0] == '_' then TrimLeadingUnderscores(s[1..]) else s
  }

  /** The log group name as it appears in the state file name. */
  function SanitizeGroupName(name: string): string {
    TrimLeadingUnderscores(ReplaceDisallowed(name))
  }

  predicate SafeName(s: string) {
    (forall i :: 0 <= i < |s| ==> AllowedInName(s[i])) && (s == [] || s[0] != '_')
  }

  /** The sanitized name holds only allowed characters and never starts with `_`. */
  lemma SanitizedNameIsSafe(name: string)
    ensures SafeName(SanitizeGroupName(name))
  {
    var replaced := ReplaceDisallowed(name);
    var r := TrimLeadingUnderscores(replaced);
    forall i | 0 <= i < |r| ensures AllowedInName(r[i]) {
      assert r[i] == replaced[|replaced| - |r| + i];
    }
  }

  /** A name that is already safe is left as it is. */
  lemma SanitizeKeepsSafeName(name: string)
    requires SafeName(name)
    ensures SanitizeGroupName(name) == name
  {
    var replaced := ReplaceDisallowed(name);
    assert replaced == name;
  }

  /** Sanitizing twice is the same as sanitizing once. */
  lemma SanitizeIdempotent(name: string)
    ensures SanitizeGroupName(SanitizeGroupName(name)) == SanitizeGroupName(name)
  {
    SanitizedNameIsSafe(name);
    SanitizeKeepsSafeName(SanitizeGroupName(name));
  }

  function HexDigit(d: nat): (c: char)
    requires d < 16
    ensures IsLowerHexDigit(c)
  {
    if d < 10 then (('0' as int) + d) as char else (('a' as int) + d - 10) as char
  }

  predicate IsLowerHexDigit(c: char) {
    ('0' <= c <= '9') || ('a' <= c <= 'f')
  }

  /** The `%x` rendering of a byte sequence: two lower-case hex digits per byte. */
  function Hex(bytes: seq<Byte>): (r: string)
    ensures |r| == 2 * |bytes|
  {
    if bytes == [] then [] else [HexDigit(bytes[0] / 16), HexDigit(bytes[0] % 16)] + Hex(bytes[1..])
  }

  /** Distinct byte sequences have distinct hex renderings. */
  lemma {:induction false} HexInjective(a: seq<Byte>, b: seq<Byte>)
    requires Hex(a) == Hex(b)
    ensures a == b
    decreases |a|
  {
    if a != [] {
      var ha, hb := Hex(a), Hex(b);
      assert ha[0] == hb[0] && ha[1] == hb[1];
      assert a[0] / 16 == b[0] / 16 && a[0] % 16 == b[0] % 16;
      assert a[0] == b[0];
      assert ha[2..] == Hex(a[1..]) && hb[2..] == Hex(b[1..]);
      HexInjective(a[1..], b[1..]);
    }
  }

  /** `strings.Join`. */
  function Join(items: seq<string>, sep: string): string
    decreases |items|
  {
    if items == [] then ""
    else if |items| == 1 then items[0]
    else items[0] + sep + Join(items[1..], sep)
  }

  /** The text md5 is taken of: the profile, a blank, and the arguments joined by blanks. */
  function DigestInput(profile: string, args: seq<string>): string {
    profile + " " + Join(args, " ")
  }

  /**
   * `filepath.Join` of a directory and a file name that holds no separator.
   * The directory is taken as already clean.
   */
  function JoinPath(dir: string, name: string): (path: string)
    ensures |path| >= |dir| + |name| && path[..|dir|] == dir && path[|path| - |name|..] == name
  {
    if dir == [] then name
    else if dir[|dir| - 1] == '/' then dir + name
    else dir + "/" + name
  }

  /** The base name of the state file: sanitized group, `-`, hex md5, `.json`. */
  function StateFileName(logGroupName: string, profile: string, args: seq<string>, md5: string -> Digest): (n: string)
    ensures |n| == |SanitizeGroupName(logGroupName)| + 38
  {
    SanitizeGroupName(logGroupName) + "-" + Hex(md5(DigestInput(profile, args))) + ".json"
  }

  /** The path of the state file of one invocation. */
  function StateFile(stateDir: string, logGroupName: string, profile: string, args: seq<string>,
                     md5: string -> Digest): (path: string)
    ensures var n := StateFileName(logGroupName, profile, args, md5);
            |path| >= |stateDir| + |n| && path[..|stateDir|] == stateDir && path[|path| - |n|..] == n
  {
    JoinPath(stateDir, StateFileName(logGroupName, profile, args, md5))
  }

  /** The state file name ends with 32 hex digits and `.json`, after the safe group name and `-`. */
  lemma StateFileNameShape(logGroupName: string, profile: string, args: seq<string>, md5: string -> Digest)
    ensures var n := StateFileName(logGroupName, profile, args, md5);
            var g := SanitizeGroupName(logGroupName);
            && |n| == |g| + 38
            && n[..|g|] == g && SafeName(g)
            && n[|g|] == '-'
            && n[|n| - 5..] == ".json"
            && forall i :: |g| < i < |n| - 5 ==> IsLowerHexDigit(n[i])
  {
    SanitizedNameIsSafe(logGroupName);
    NameShape(SanitizeGroupName(logGroupName), md5(DigestInput(profile, args)));
  }

  lemma NameShape(g: string, d: Digest)
    ensures var n := g + "-" + Hex(d) + ".json";
            && |n| == |g| + 38
            && n[..|g|] == g
            && n[|g|] == '-'
            && n[|n| - 5..] == ".json"
            && forall i :: |g| < i < |n| - 5 ==> IsLowerHexDigit(n[i])
  {
    var hex := Hex(d);
    HexDigitsOnly(d);
    var head := g + "-" + hex;
    var n := head + ".json";
    assert n[..|head|] == head && n[|head|..] == ".json";
    assert head[..|g|] == g && head[|g|] == '-';
    forall i | |g| < i < |n| - 5 ensures IsLowerHexDigit(n[i]) {
      assert n[i] == head[i] == hex[i - |g| - 1];
    }
  }

  lemma {:induction false} HexDigitsOnly(bytes: seq<Byte>)
    ensures forall i :: 0 <= i < |Hex(bytes)| ==> IsLowerHexDigit(Hex(bytes)[i])
    decreases |bytes|
  {
    if bytes != [] {
      HexDigitsOnly(bytes[1..]);
    }
  }

  lemma JoinPathInjective(dir: string, a: string, b: string)
    requires JoinPath(dir, a) == JoinPath(dir, b)
    ensures a == b
  {
    if dir != [] {
      var p := if dir[|dir| - 1] == '/' then dir else dir + "/";
      assert JoinPath(dir, a) == p + a && JoinPath(dir, b) == p + b;
      assert a == (p + a)[|p|..];
    }
  }

  /** Two invocations whose md5 inputs hash differently get different state files. */
  lemma StateFileSeparatesDigests(stateDir: string, logGroupName: string, profile1: string, args1: seq<string>,
                                  profile2: string, args2: seq<string>, md5: string -> Digest)
    requires md5(DigestInput(profile1, args1)) != md5(DigestInput(profile2, args2))
    ensures StateFile(stateDir, logGroupName, profile1, args1, md5)
         != StateFile(stateDir, logGroupName, profile2, args2, md5)
  {
    var g := SanitizeGroupName(logGroupName);
    var h1 := Hex(md5(DigestInput(profile1, args1)));
    var h2 := Hex(md5(DigestInput(profile2, args2)));
    var n1 := g + "-" + h1 + ".json";
    var n2 := g + "-" + h2 + ".json";
    if StateFile(stateDir, logGroupName, profile1, args1, md5) == StateFile(stateDir, logGroupName, profile2, args2, md5) {
      JoinPathInjective(stateDir, n1, n2);
      assert h1 == n1[|g| + 1..|g| + 33];
      assert h2 == n2[|g| + 1..|g| + 33];
      HexInjective(md5(DigestInput(profile1, args1)), md5(DigestInput(profile2, args2)));
    }
  }

  /** A command-line argument that holds no blank and is not empty. */
  predicate Word(s: string) {
    s != [] && ' ' !in s
  }

  /** The index of the first blank of `u`, or its length when it has none. */
  function FirstBlank(u: string): (k: nat)
    ensures k <= |u|
  {
    if u == [] || u[0] == ' ' then 0 else 1 + FirstBlank(u[1..])
  }

  lemma {:induction false} FirstBlankAfterBlankFree(x: string, s: string)
    requires ' ' !in x
    requires s == [] || s[0] == ' '
    ensures FirstBlank(x + s) == |x|
    decreases |x|
  {
    if x == [] {
      assert x + s == s;
    } else {
      assert (x + s)[0] == x[0] && (x + s)[1..] == x[1..] + s;
      assert ' ' !in x[1..] by {
        forall i | 0 <= i < |x[1..]| ensures x[1..][i] != ' ' {
          assert x[1..][i] == x[i + 1];
        }
      }
      FirstBlankAfterBlankFree(x[1..], s);
    }
  }

  lemma SplitAtBlank(x: string, s: string, y: string, t: string)
    requires Word(x) && Word(y)
    requires s == [] || s[0] == ' '
    requires t == [] || t[0] == ' '
    requires x + s == y + t
    ensures x == y && s == t
  {
    FirstBlankAfterBlankFree(x, s);
    FirstBlankAfterBlankFree(y, t);
    assert x == (x + s)[..|x|] && y == (y + t)[..|y|];
    assert s == (x + s)[|x|..] && t == (y + t)[|y|..];
  }

  /** Joining words with blanks loses nothing: the words can be read back. */
  lemma {:induction false} JoinWordsInjective(a: seq<string>, b: seq<string>)
    requires forall i :: 0 <= i < |a| ==> Word(a[i])
    requires forall i :: 0 <= i < |b| ==> Word(b[i])
    requires Join(a, " ") == Join(b, " ")
    ensures a == b
    decreases |a|
  {
    if a != [] && b != [] {
      var s := if |a| == 1 then "" else " " + Join(a[1..], " ");
      var t := if |b| == 1 then "" else " " + Join(b[1..], " ");
      assert Join(a, " ") == a[0] + s;
      assert Join(b, " ") == b[0] + t;
      SplitAtBlank(a[0], s, b[0], t);
      if |a| > 1 && |b| > 1 {
        assert Join(a[1..], " ") == s[1..] && Join(b[1..], " ") == t[1..];
        JoinWordsInjective(a[1..], b[1..]);
        assert a == [a[0]] + a[1..] && b == [b[0]] + b[1..];
      }
    }
  }

  /**
   * Two invocations with the same profile whose argument lists differ (each
   * argument a non-empty blank-free word) get different state files, as long
   * as md5 does not collide on the two inputs.
   */
  lemma StateFilesDifferForDifferentArgs(stateDir: string, logGroupName: string, profile: string,
                                         args1: seq<string>, args2: seq<string>, md5: string -> Digest)
    requires forall i :: 0 <= i < |args1| ==> Word(args1[i])
    requires forall i :: 0 <= i < |args2| ==> Word(args2[i])
    requires args1 != args2
    requires md5(DigestInput(profile, args1)) == md5(DigestInput(profile, args2)) ==>
             DigestInput(profile, args1) == DigestInput(profile, args2)
    ensures StateFile(stateDir, logGroupName, profile, args1, md5)
         != StateFile(stateDir, logGroupName, profile, args2, md5)
  {
    var k1, k2 := DigestInput(profile, args1), DigestInput(profile, args2);
    if k1 == k2 {
      var n := |profile| + 1;
      assert Join(args1, " ") == k1[n..] && Join(args2, " ") == k2[n..];
      JoinWordsInjective(args1, args2);
    }
    StateFileSeparatesDigests(stateDir, logGroupName, profile, args1, profile, args2, md5);
  }

  /** Joining two equally long lists that differ at one index, and only there, gives different texts. */
  lemma {:induction false} JoinDiffersAtOne(a: seq<string>, b: seq<string>, sep: string, i: nat)
    requires |a| == |b| && i < |a| && a[i] != b[i]
    requires forall j :: 0 <= j < |a| && j != i ==> a[j] == b[j]
    ensures Join(a, sep) != Join(b, sep)
    decreases i
  {
    if i == 0 {
      var rest := if |a| == 1 then "" else sep + Join(a[1..], sep);
      assert a[1..] == b[1..];
      assert Join(a, sep) == a[0] + rest && Join(b, sep) == b[0] + rest;
      if |a[0]| == |b[0]| {
        assert (a[0] + rest)[..|a[0]|] == a[0] && (b[0] + rest)[..|b[0]|] == b[0];
      }
    } else {
      assert a[0] == b[0];
      forall j | 0 <= j < |a[1..]| && j != i - 1 ensures a[1..][j] == b[1..][j] {
        assert a[1..][j] == a[j + 1];
      }
      JoinDiffersAtOne(a[1..], b[1..], sep, i - 1);
      var head := a[0] + sep;
      assert Join(a, sep) == head + Join(a[1..], sep) && Join(b, sep) == head + Join(b[1..], sep);
      assert (head + Join(a[1..], sep))[|head|..] == Join(a[1..], sep);
      assert (head + Join(b[1..], sep))[|head|..] == Join(b[1..], sep);
    }
  }

  /**
   * Two invocations with the same profile whose argument lists differ in one
   * argument, whatever it holds (a pattern with blanks, say), get different
   * state files, as long as md5 does not collide on the two inputs.
   */
  lemma StateFilesDifferAtOneArgument(stateDir: string, logGroupName: string, profile: string,
                                      args1: seq<string>, args2: seq<string>, i: nat, md5: string -> Digest)
    requires |args1| == |args2| && i < |args1| && args1[i] != args2[i]
    requires forall j :: 0 <= j < |args1| && j != i ==> args1[j] == args2[j]
    requires md5(DigestInput(profile, args1)) == md5(DigestInput(profile, args2)) ==>
             DigestInput(profile, args1) == DigestInput(profile, args2)
    ensures StateFile(stateDir, logGroupName, profile, args1, md5)
         != StateFile(stateDir, logGroupName, profile, args2, md5)
  {
    JoinDiffersAtOne(args1, args2, " ", i);
    var k1, k2 := DigestInput(profile, args1), DigestInput(profile, args2);
    var n := |profile| + 1;
    assert k1[n..] == Join(args1, " ") && k2[n..] == Join(args2, " ");
    StateFileSeparatesDigests(stateDir, logGroupName, profile, args1, profile, args2, md5);
  }

  /**
   * The md5 input does not keep argument boundaries: an argument holding a
   * blank and the same text given as two arguments share a state file, and
   * so do an empty argument and no argument.
   */
  lemma ArgumentBoundariesAreLost(stateDir: string, logGroupName: string, md5: string -> Digest)
    ensures StateFile(stateDir, logGroupName, "p", ["-p", "a b"], md5)
         == StateFile(stateDir, logGroupName, "p", ["-p", "a", "b"], md5)
    ensures StateFile(stateDir, logGroupName, "p", [""], md5)
         == StateFile(stateDir, logGroupName, "p", [], md5)
  {
    assert ["-p", "a", "b"][1..] == ["a", "b"] && ["a", "b"][1..] == ["b"];
    assert ["-p", "a b"][1..] == ["a b"];
    assert DigestInput("p", ["-p", "a b"]) == DigestInput("p", ["-p", "a", "b"]);
  }

  /* ---------------------------------------------------------------------
   * Persisted cursor and the incremental scan
   * ------------------------------------------------------------------- */

  /** The persisted cursor; either field may be absent (JSON null). */
  datatype LogState = LogState(nextToken: Option<string>, startTime: Option<int>)

  /** What loading the state file can give. */
  datatype LoadResult =
    | NotFound                  // the file does not exist
    | LoadFailed(reason: string) // any other open or decode error
    | Loaded(state: LogState)

  /** What writing the state file can give. */
  datatype SaveOutcome = SaveOk | SaveFailed(reason: string)

  /** One matching log event. */
  datatype Event = Event(message: string, timestamp: int)

  /** One response of `FilterLogEvents`: a page of events and maybe a token for more, or an error. */
  datatype Page = PageOk(events: seq<Event>, nextToken: Option<string>) | PageErr(reason: string)

  /** The input of one `FilterLogEvents` call. */
  datatype Request = Request(startTime: int, logGroupName: string, nextToken: Option<string>, filterPattern: string)

  datatype RunError =
    | LoadError(reason: string)
    | QueryError(reason: string)
    | NoResponse                 // the modelled service has no further response to give
    | SaveError(reason: string)

  /**
   * Everything a scan does that can be observed: the requests it sent, the
   * state it handed to the store (if any), and its result: the matched
   * messages (None standing for Go's nil slice) or an error.
   */
  datatype RunResult = RunResult(requests: seq<Request>, saved: Option<LogState>,
                                 outcome: Result<Option<seq<string>>, RunError>)

  /** A saved cursor older than this many seconds is discarded. */
  const FreshnessSeconds := 3600
  /** A fresh scan window reaches back this many seconds. */
  const FreshWindowSeconds := 60

  /** In milliseconds: a saved start time must be later than this to be reused. */
  function StaleBefore(nowSec: int): int {
    (nowSec - FreshnessSeconds) * 1000
  }

  /** In milliseconds: the start of a fresh window. */
  function FreshWindowStart(nowSec: int): int {
    (nowSec - FreshWindowSeconds) * 1000
  }

  /** Whether the loaded state is adopted: it has a start time, and that start time is fresh. */
  predicate Resumes(loaded: LoadResult, nowSec: int) {
    loaded.Loaded? && loaded.state.startTime.Some? && loaded.state.startTime.value > StaleBefore(nowSec)
  }

  /** The start time after a page: one past the LAST event's timestamp; unchanged for an empty page. */
  function AdvanceStart(start: int, events: seq<Event>): int {
    if events == [] then start else events[|events| - 1].timestamp + 1
  }

  function EventMessages(events: seq<Event>): (r: seq<string>)
    ensures |r| == |events|
    ensures forall j :: 0 <= j < |events| ==> r[j] == events[j].message
  {
    if events == [] then [] else EventMessages(events[..|events| - 1]) + [events[|events| - 1].message]
  }

  /** Every page's event messages, in page order and then event order. */
  function PageMessages(pages: seq<Page>): seq<string> {
    if pages == [] then []
    else
      var last := pages[|pages| - 1];
      PageMessages(pages[..|pages| - 1]) + (if last.PageOk? then EventMessages(last.events) else [])
  }

  /** Go's append on a slice that may be nil. */
  function Append(messages: Option<seq<string>>, m: string): Option<seq<string>> {
    Some(messages.GetOr([]) + [m])
  }

  /** A slice that received no element is still nil. */
  function NilIfEmpty(s: seq<string>): Option<seq<string>> {
    if s == [] then None else Some(s)
  }

  /**
   * The requests follow the pages: request i+1 is only sent after page i came
   * back without error and with a token, carries that token, and starts where
   * page i moved the start time.
   */
  predicate Chained(pages: seq<Page>, requests: seq<Request>) {
    forall i :: 0 < i < |requests| ==> FollowsPage(pages, requests, i)
  }

  /** Request i was sent in answer to page i-1. */
  predicate FollowsPage(pages: seq<Page>, requests: seq<Request>, i: nat)
    requires 0 < i < |requests|
  {
    && i <= |pages|
    && pages[i - 1].PageOk?
    && pages[i - 1].nextToken.Some?
    && requests[i].nextToken == pages[i - 1].nextToken
    && requests[i].startTime == AdvanceStart(requests[i - 1].startTime, pages[i - 1].events)
  }

  /** Sending one more request in answer to the latest page keeps the requests chained. */
  lemma ChainedAppend(pages: seq<Page>, requests: seq<Request>, request: Request)
    requires Chained(pages, requests)
    requires |requests| > 0 ==>
      var k := |requests|;
      && k <= |pages|
      && pages[k - 1].PageOk?
      && pages[k - 1].nextToken.Some?
      && request.nextToken == pages[k - 1].nextToken
      && request.startTime == AdvanceStart(requests[k - 1].startTime, pages[k - 1].events)
    ensures Chained(pages, requests + [request])
  {
    var extended := requests + [request];
    forall i | 0 < i < |extended| ensures FollowsPage(pages, extended, i) {
      if i < |requests| {
        assert FollowsPage(pages, requests, i);
        assert extended[i] == requests[i] && extended[i - 1] == requests[i - 1];
      }
    }
  }

  /**
   * The inner loop of the scan over one page: append each event's message and
   * move the start time to one past each event's timestamp in turn.
   */
  method TakeEvents(messages: Option<seq<string>>, start: int, events: seq<Event>, ghost before: seq<string>)
    returns (messages': Option<seq<string>>, startTime: Option<int>)
    requires messages == NilIfEmpty(before)
    ensures messages' == NilIfEmpty(before + EventMessages(events))
    ensures startTime == Some(AdvanceStart(start, events))
  {
    messages', startTime := messages, Some(start);
    assert before + EventMessages(events[..0]) == before;
    for j := 0 to |events|
      invariant messages' == NilIfEmpty(before + EventMessages(events[..j]))
      invariant startTime == Some(AdvanceStart(start, events[..j]))
    {
      assert events[..j + 1][..j] == events[..j];
      assert before + EventMessages(events[..j + 1])
          == (before + EventMessages(events[..j])) + [events[j].message];
      messages' := Append(messages', events[j].message);
      startTime := Some(events[j].timestamp + 1);
    }
    assert events[..|events|] == events;
  }

  /**
   * Where the scan starts (the head of `cloudwatchLogsPlugin.run`). A load
   * failure other than file-not-found is an error. A loaded state's token and
   * start time are adopted together, and only when its start time is present
   * and later than one hour ago; otherwise there is no token and the window
   * starts one minute ago.
   */
  method Resume(loaded: LoadResult, nowSec: int) returns (r: Result<(Option<string>, int), RunError>)
    ensures loaded.LoadFailed? <==> r.Failure?
    ensures loaded.LoadFailed? ==> r == Failure(LoadError(loaded.reason))
    ensures r.Success? && Resumes(loaded, nowSec) ==>
      r.value == (loaded.state.nextToken, loaded.state.startTime.value)
    ensures r.Success? && !Resumes(loaded, nowSec) ==> r.value == (None, FreshWindowStart(nowSec))
  {
    var nextToken: Option<string> := None;
    var startTime: Option<int> := None;
    match loaded {
      case LoadFailed(reason) =>
        return Failure(LoadError(reason));
      case NotFound =>
      case Loaded(s) =>
        if s.startTime.Some? && s.startTime.value > (nowSec - FreshnessSeconds) * 1000 {
          nextToken := s.nextToken;
          startTime := s.startTime;
        }
    }
    if startTime.None? {
      startTime := Some((nowSec - FreshWindowSeconds) * 1000);
    }
    return Success((nextToken, startTime.value));
  }

  /** How the pagination loop ended. */
  datatype ScanEnd =
    | Finished(messages: Option<seq<string>>, nextToken: Option<string>, startTime: int)
    | Aborted(error: RunError)

  /** The request that was sent last. */
  function LastRequest(requests: seq<Request>): Request
    requires requests != []
  {
    requests[|requests| - 1]
  }

  /**
   * The pagination loop of `cloudwatchLogsPlugin.run`. The first request
   * carries the starting token and start time; each further one is chained
   * to the page before it. The loop stops at the first page without a token,
   * having collected every page's messages, or at the first error. On a
   * normal end the token variable still holds the token of the last request,
   * and the start time has moved past the last page.
   */
  method Paginate(opts: Options, pages: seq<Page>, token0: Option<string>, start0: int)
    returns (requests: seq<Request>, end: ScanEnd)
    ensures 1 <= |requests| <= |pages| + 1
    ensures requests[0] == Request(start0, opts.logGroupName, token0, opts.pattern)
    ensures Chained(pages, requests)
    ensures forall i :: 0 <= i < |requests| ==>
      requests[i].logGroupName == opts.logGroupName && requests[i].filterPattern == opts.pattern
    ensures |requests| == |pages| + 1 ==> end == Aborted(NoResponse)
    ensures |requests| <= |pages| && pages[|requests| - 1].PageErr? ==>
      end == Aborted(QueryError(pages[|requests| - 1].reason))
    ensures |requests| <= |pages| && pages[|requests| - 1].PageOk? ==>
      && pages[|requests| - 1].nextToken.None?
      && end == Finished(NilIfEmpty(PageMessages(pages[..|requests|])),
                         LastRequest(requests).nextToken,
                         AdvanceStart(LastRequest(requests).startTime, pages[|requests| - 1].events))
  {
    var nextToken, startTime := token0, start0;
    var messages: Option<seq<string>> := None;
    requests := [];
    var i := 0;
    while true
      invariant 0 <= i <= |pages| && |requests| == i
      invariant i == 0 ==> nextToken == token0 && startTime == start0
      invariant i > 0 ==> requests[0] == Request(start0, opts.logGroupName, token0, opts.pattern)
      invariant i > 0 ==> pages[i - 1].PageOk? && pages[i - 1].nextToken.Some?
      invariant i > 0 ==> nextToken == pages[i - 1].nextToken
      invariant i > 0 ==> startTime == AdvanceStart(requests[i - 1].startTime, pages[i - 1].events)
      invariant Chained(pages, requests)
      invariant forall j :: 0 <= j < i ==>
        requests[j].logGroupName == opts.logGroupName && requests[j].filterPattern == opts.pattern
      invariant messages == NilIfEmpty(PageMessages(pages[..i]))
      decreases |pages| - i
    {
      var request := Request(startTime, opts.logGroupName, nextToken, opts.pattern);
      ChainedAppend(pages, requests, request);
      requests := requests + [request];
      if i == |pages| {
        return requests, Aborted(NoResponse);
      }
      var page := pages[i];
      i := i + 1;
      if page.PageErr? {
        return requests, Aborted(QueryError(page.reason));
      }
      var advanced;
      messages, advanced := TakeEvents(messages, startTime, page.events, PageMessages(pages[..i - 1]));
      startTime := advanced.value;
      assert pages[..i][..i - 1] == pages[..i - 1];
      if page.nextToken.None? {
        return requests, Finished(messages, nextToken, startTime);
      }
      nextToken := page.nextToken;
    }
  }

  /**
   * The scan (`cloudwatchLogsPlugin.run`): resume, paginate, then hand the
   * state to the store exactly when the token variable is set after the
   * loop, that is when the last request carried a token. Any error returns
   * no messages; a load or query error also writes no state.
   */
  method Run(opts: Options, loaded: LoadResult, nowSec: int, pages: seq<Page>, save: SaveOutcome)
    returns (r: RunResult)
    ensures loaded.LoadFailed? ==> r == RunResult([], None, Failure(LoadError(loaded.reason)))
    ensures !loaded.LoadFailed? ==>
      && 1 <= |r.requests| <= |pages| + 1
      && r.requests[0].nextToken == (if Resumes(loaded, nowSec) then loaded.state.nextToken else None)
      && r.requests[0].startTime ==
         (if Resumes(loaded, nowSec) then loaded.state.startTime.value else FreshWindowStart(nowSec))
      && Chained(pages, r.requests)
    ensures forall i :: 0 <= i < |r.requests| ==>
      r.requests[i].logGroupName == opts.logGroupName && r.requests[i].filterPattern == opts.pattern
    ensures !loaded.LoadFailed? && |r.requests| == |pages| + 1 ==>
      r.saved.None? && r.outcome == Failure(NoResponse)
    ensures !loaded.LoadFailed? && |r.requests| <= |pages| && pages[|r.requests| - 1].PageErr? ==>
      r.saved.None? && r.outcome == Failure(QueryError(pages[|r.requests| - 1].reason))
    ensures !loaded.LoadFailed? && |r.requests| <= |pages| && pages[|r.requests| - 1].PageOk? ==>
      var last := LastRequest(r.requests);
      && pages[|r.requests| - 1].nextToken.None?
      && r.saved == (if last.nextToken.Some?
                     then Some(LogState(last.nextToken,
                                        Some(AdvanceStart(last.startTime, pages[|r.requests| - 1].events))))
                     else None)
      && r.outcome == (if last.nextToken.Some? && save.SaveFailed?
                       then Failure(SaveError(save.reason))
                       else Success(NilIfEmpty(PageMessages(pages[..|r.requests|]))))
  {
    var resumed := Resume(loaded, nowSec);
    if resumed.Failure? {
      return RunResult([], None, Failure(resumed.error));
    }
    var (nextToken, startTime) := resumed.value;
    var requests, end := Paginate(opts, pages, nextToken, startTime);
    if end.Aborted? {
      return RunResult(requests, None, Failure(end.error));
    }
    var saved: Option<LogState> := None;
    if end.nextToken.Some? {
      saved := Some(LogState(end.nextToken, Some(end.startTime)));
      if save.SaveFailed? {
        return RunResult(requests, saved, Failure(SaveError(save.reason)));
      }
    }
    return RunResult(requests, saved, Success(end.messages));
  }

  /* ---------------------------------------------------------------------
   * Properties of the scan
   * ------------------------------------------------------------------- */

  /**
   * The save gate: after a scan that ended normally, the last request carried
   * a token exactly when the scan resumed with a token or some page returned
   * one.
   */
  lemma SaveGate(pages: seq<Page>, requests: seq<Request>)
    requires Chained(pages, requests) && requests != []
    requires |requests| <= |pages| && pages[|requests| - 1].PageOk? && pages[|requests| - 1].nextToken.None?
    ensures LastRequest(requests).nextToken.Some? <==>
            (requests[0].nextToken.Some? ||
             exists i :: 0 <= i < |requests| && pages[i].PageOk? && pages[i].nextToken.Some?)
  {
    var k := |requests|;
    if k > 1 {
      assert FollowsPage(pages, requests, k - 1);
    }
  }

  predicate SortedByTime(events: seq<Event>) {
    forall i, j :: 0 <= i < j < |events| ==> events[i].timestamp <= events[j].timestamp
  }

  /** The largest timestamp of a non-empty page. */
  function MaxTimestamp(events: seq<Event>): (m: int)
    requires events != []
    ensures forall i :: 0 <= i < |events| ==> events[i].timestamp <= m
    ensures exists i :: 0 <= i < |events| && events[i].timestamp == m
  {
    if |events| == 1 then events[0].timestamp
    else
      var rest := MaxTimestamp(events[1..]);
      assert forall i :: 1 <= i < |events| ==> events[i] == events[1..][i - 1];
      if events[0].timestamp >= rest then events[0].timestamp else rest
  }

  /** On a page sorted by time the last event is the latest, so the start moves to the maximum plus one. */
  lemma AdvanceStartIsMaxWhenSorted(start: int, events: seq<Event>)
    requires events != [] && SortedByTime(events)
    ensures AdvanceStart(start, events) == MaxTimestamp(events) + 1
  {
    var m := MaxTimestamp(events);
    var i :| 0 <= i < |events| && events[i].timestamp == m;
    if i < |events| - 1 {
      assert events[i].timestamp <= events[|events| - 1].timestamp;
    }
  }

  /** On an unsorted page the start moves past the last event, below the maximum. */
  lemma AdvanceStartMayTrailMax()
    ensures var events := [Event("later", 5), Event("earlier", 3)];
            AdvanceStart(0, events) == 4 && MaxTimestamp(events) == 5
  {
    var events := [Event("later", 5), Event("earlier", 3)];
    assert events[1..] == [Event("earlier", 3)];
  }

  /** The service answers only with events at or after the start time of the request. */
  predicate HonoursStartTime(pages: seq<Page>, requests: seq<Request>) {
    forall i, j :: 0 <= i < |requests| && i < |pages| && pages[i].PageOk? && 0 <= j < |pages[i].events| ==>
      pages[i].events[j].timestamp >= requests[i].startTime
  }

  /** The service returns every page the scan requested sorted by time. */
  predicate PagesSorted(pages: seq<Page>, requests: seq<Request>) {
    forall i :: 0 <= i < |requests| && i < |pages| && pages[i].PageOk? ==> SortedByTime(pages[i].events)
  }

  lemma BelowAdvance(request: Request, events: seq<Event>)
    requires SortedByTime(events)
    requires forall j :: 0 <= j < |events| ==> events[j].timestamp >= request.startTime
    ensures AdvanceStart(request.startTime, events) >= request.startTime
    ensures forall j :: 0 <= j < |events| ==> events[j].timestamp < AdvanceStart(request.startTime, events)
  {
  }

  /** A page at or after the start time does not move the start back, sorted or not. */
  lemma AdvanceNotBack(start: int, events: seq<Event>)
    requires forall j :: 0 <= j < |events| ==> events[j].timestamp >= start
    ensures AdvanceStart(start, events) > start || (events == [] && AdvanceStart(start, events) == start)
  {
    if events != [] {
      assert events[|events| - 1].timestamp >= start;
    }
  }

  /** Along chained requests the start time never moves back, whatever the order within a page. */
  lemma {:induction false} StartTimeMonotone(pages: seq<Page>, requests: seq<Request>, i: nat, j: nat)
    requires Chained(pages, requests) && HonoursStartTime(pages, requests)
    requires i <= j < |requests|
    ensures requests[i].startTime <= requests[j].startTime
    decreases j - i
  {
    if i < j {
      StartTimeMonotone(pages, requests, i, j - 1);
      assert FollowsPage(pages, requests, j);
      AdvanceNotBack(requests[j - 1].startTime, pages[j - 1].events);
    }
  }

  /**
   * No redelivery at the boundary: when the service honours start times and
   * returns each page sorted by time, the start time a completed scan ends
   * with (the one it saves) lies after every event it returned, so a scan
   * resumed from it cannot return any of them again.
   */
  lemma ResumePointPassesEveryEvent(pages: seq<Page>, requests: seq<Request>)
    requires Chained(pages, requests) && HonoursStartTime(pages, requests) && PagesSorted(pages, requests)
    requires requests != [] && |requests| <= |pages| && pages[|requests| - 1].PageOk?
    ensures var k := |requests|;
            var final := AdvanceStart(requests[k - 1].startTime, pages[k - 1].events);
            forall i, j :: 0 <= i < k && pages[i].PageOk? && 0 <= j < |pages[i].events| ==>
              pages[i].events[j].timestamp < final
  {
    var k := |requests|;
    var final := AdvanceStart(requests[k - 1].startTime, pages[k - 1].events);
    BelowAdvance(requests[k - 1], pages[k - 1].events);
    forall i, j | 0 <= i < k && pages[i].PageOk? && 0 <= j < |pages[i].events|
      ensures pages[i].events[j].timestamp < final
    {
      if i < k - 1 {
        assert FollowsPage(pages, requests, i + 1);
        BelowAdvance(requests[i], pages[i].events);
        StartTimeMonotone(pages, requests, i + 1, k - 1);
      }
    }
  }

  /**
   * The value of the start time after `k` chained pages: the first request's
   * start when none of them held an event, and otherwise one past the
   * timestamp of some returned event (the last event of the last page that
   * held one).
   */
  lemma {:induction false} FinalStartFollowsLastEvent(pages: seq<Page>, requests: seq<Request>, k: nat)
    requires Chained(pages, requests)
    requires 1 <= k <= |requests| && k <= |pages| && pages[k - 1].PageOk?
    ensures var final := AdvanceStart(requests[k - 1].startTime, pages[k - 1].events);
            (forall i :: 0 <= i < k ==> pages[i].PageOk? && pages[i].events == []) ==>
              final == requests[0].startTime
    ensures var final := AdvanceStart(requests[k - 1].startTime, pages[k - 1].events);
            (exists i :: 0 <= i < k && pages[i].PageOk? && pages[i].events != []) ==>
              exists i, j :: 0 <= i < k && pages[i].PageOk? && 0 <= j < |pages[i].events| &&
                             final == pages[i].events[j].timestamp + 1
    decreases k
  {
    var events := pages[k - 1].events;
    var final := AdvanceStart(requests[k - 1].startTime, events);
    if events != [] {
      assert final == events[|events| - 1].timestamp + 1;
    } else if k > 1 {
      assert FollowsPage(pages, requests, k - 1);
      FinalStartFollowsLastEvent(pages, requests, k - 1);
      assert final == requests[k - 1].startTime;
      forall i | 0 <= i < k && pages[i].PageOk? && pages[i].events != [] ensures i < k - 1 {
      }
    }
  }

  /**
   * The saved start time is the latest returned timestamp plus one: when the
   * service honours start times and sorts each page, a completed scan that
   * returned any event ends one past the largest timestamp it returned.
   */
  lemma SavedStartIsLatestPlusOne(pages: seq<Page>, requests: seq<Request>)
    requires Chained(pages, requests) && HonoursStartTime(pages, requests) && PagesSorted(pages, requests)
    requires requests != [] && |requests| <= |pages| && pages[|requests| - 1].PageOk?
    requires exists i :: 0 <= i < |requests| && pages[i].PageOk? && pages[i].events != []
    ensures var k := |requests|;
            var final := AdvanceStart(requests[k - 1].startTime, pages[k - 1].events);
            && (exists i, j :: 0 <= i < k && pages[i].PageOk? && 0 <= j < |pages[i].events| &&
                               final == pages[i].events[j].timestamp + 1)
            && (forall i, j :: 0 <= i < k && pages[i].PageOk? && 0 <= j < |pages[i].events| ==>
                               pages[i].events[j].timestamp < final)
  {
    FinalStartFollowsLastEvent(pages, requests, |requests|);
    ResumePointPassesEveryEvent(pages, requests);
  }

  /* ---------------------------------------------------------------------
   * Threshold evaluation
   * ------------------------------------------------------------------- */

  datatype Status = OK | WARNING | CRITICAL | UNKNOWN

  /** The check result handed to the plugin runner. */
  datatype Checker = Checker(status: Status, message: string)

  /** `len` of a slice that may be nil. */
  function Count(messages: Option<seq<string>>): nat {
    if messages.Some? then |messages.value| else 0
  }

  /** The comparison shown after the count: the threshold that was exceeded, critical first. */
  function ThresholdNote(n: int, opts: Options): string {
    if n > opts.criticalOver then " > " + Decimal.IntToString(opts.criticalOver)
    else if n > opts.warningOver then " > " + Decimal.IntToString(opts.warningOver)
    else ""
  }

  /**
   * What `check` promises: CRITICAL when the count is over the critical
   * threshold, else WARNING when it is over the warning threshold, else OK,
   * except that a nil message list (no event was ever appended) is OK whatever
   * the thresholds. The message is the count, the exceeded threshold (shown
   * even for a nil list), the pattern, and, with ReturnContent and a non-nil
   * list, a newline and every message run together.
   */
  predicate Evaluated(opts: Options, messages: Option<seq<string>>, c: Checker) {
    var n := Count(messages);
    && (c.status == CRITICAL <==> messages.Some? && n > opts.criticalOver)
    && (c.status == WARNING <==> messages.Some? && opts.warningOver < n <= opts.criticalOver)
    && (c.status == OK <==> messages.None? || (n <= opts.criticalOver && n <= opts.warningOver))
    && c.message == Decimal.IntToString(n) + ThresholdNote(n, opts) + PatternNote(opts.pattern)
                    + (if messages.Some? && opts.returnContent then ContentNote(messages.value) else "")
  }

  function PatternNote(pattern: string): string {
    " messages for pattern /" + pattern + "/"
  }

  /** The matched text: a newline, then the messages joined with no separator. */
  function ContentNote(messages: seq<string>): string {
    "\n" + Join(messages, "")
  }

  /** The message starts with the count itself: its leading digits read back as the count. */
  lemma MessageStartsWithCount(opts: Options, messages: Option<seq<string>>, c: Checker)
    requires Evaluated(opts, messages, c)
    ensures var k := Decimal.LeadingDigits(c.message);
            k > 0 && Decimal.DigitsValue(c.message[..k]) == Count(messages)
  {
    var n := Count(messages);
    var content := if messages.Some? && opts.returnContent then ContentNote(messages.value) else "";
    assert Decimal.IntToString(n) == Decimal.NatToString(n);
    CountReadsBack(n, ThresholdNote(n, opts), PatternNote(opts.pattern), content, c.message);
  }

  lemma CountReadsBack(n: nat, note: string, pat: string, content: string, msg: string)
    requires msg == ((Decimal.NatToString(n) + note) + pat) + content
    requires note == [] || note[0] == ' '
    requires |pat| > 0 && pat[0] == ' '
    ensures var k := Decimal.LeadingDigits(msg);
            k > 0 && Decimal.DigitsValue(msg[..k]) == n
  {
    var digits := Decimal.NatToString(n);
    var tail := (note + pat) + content;
    assert (digits + note) + pat == digits + (note + pat);
    assert msg == digits + tail;
    assert tail[0] == (note + pat)[0];
    Decimal.NatToStringReadsBack(n, tail);
  }

  /** `cloudwatchLogsPlugin.check`. */
  method Check(opts: Options, messages: Option<seq<string>>) returns (c: Checker)
    ensures Evaluated(opts, messages, c)
  {
    var status := OK;
    var n := Count(messages);
    var msg := Decimal.IntToString(n);
    if n > opts.criticalOver {
      status := CRITICAL;
      msg := msg + (" > " + Decimal.IntToString(opts.criticalOver));
    } else if n > opts.warningOver {
      status := WARNING;
      msg := msg + (" > " + Decimal.IntToString(opts.warningOver));
    }
    assert msg == Decimal.IntToString(n) + ThresholdNote(n, opts);
    msg := msg + PatternNote(opts.pattern);
    if messages.Some? {
      if opts.returnContent {
        msg := msg + ContentNote(messages.value);
      }
      return Checker(status, msg);
    }
    return Checker(OK, msg);
  }

  /** The text of an error, as `fmt.Sprint` shows it. */
  function ErrorText(e: RunError): string {
    match e
    case LoadError(reason) => reason
    case QueryError(reason) => reason
    case NoResponse => "no response"
    case SaveError(reason) => reason
  }

  /** The end of the plugin's `run`: an error of the scan is UNKNOWN with its text; otherwise evaluate. */
  method Conclude(opts: Options, outcome: Result<Option<seq<string>>, RunError>) returns (c: Checker)
    ensures outcome.Failure? ==> c == Checker(UNKNOWN, ErrorText(outcome.error))
    ensures outcome.Success? ==> Evaluated(opts, outcome.value, c) && c.status != UNKNOWN
  {
    if outcome.Failure? {
      return Checker(UNKNOWN, ErrorText(outcome.error));
    }
    c := Check(opts, outcome.value);
  }

  /** Below, between and above the thresholds, and a nil list, worked through `Check`. */
  method ThresholdExamples() {
    var opts := Options("group", "ERROR", 10, 20, false);
    var c := Check(opts, Some(seq(5, _ => "m")));
    assert c.status == OK;
    c := Check(opts, Some(seq(15, _ => "m")));
    assert c.status == WARNING;
    assert Decimal.NatToString(15) == "15" && Decimal.NatToString(10) == "10";
    assert c.message[..7] == "15 > 10";
    c := Check(opts, Some(seq(25, _ => "m")));
    assert c.status == CRITICAL;
    assert Decimal.NatToString(25) == "25" && Decimal.NatToString(20) == "20";
    assert c.message[..7] == "25 > 20";
    c := Check(opts, None);
    assert c.status == OK;
  }
}
