/** The source fetcher of kafka_sbuild/entrypoint.py: locating a package in the
    Debian pool (`find_deb_prefix`, `parse_page_deb`), the retrying snapshot
    download (`download_from_snapshot`), page retrieval and the `download`
    dispatcher. The network is an input: the outcome of each curl attempt, the
    response of each plain HTTP request and the links an HTML page yields. */
module Fetch {
  import opened Text

  newtype byte = x: int | 0 <= x < 256
  type Bytes = seq<byte>

  const ArchiveMirror: string := "https://snapshot.debian.org"
  const DebPool: string := "http://deb.debian.org/debian/pool/main/"

  /** `snap_url.format(source, version)` */
  function SnapUrl(source: string, version: string): string {
    ArchiveMirror + "/package/" + source + "/" + version + "/"
  }

  /** `download_url.format(href)` */
  function DownloadUrl(href: string): string {
    ArchiveMirror + href
  }

  /** `deb_url.format(prefix, source, file)` */
  function DebUrl(prefix: string, source: string, file: string): string {
    DebPool + prefix + "/" + source + "/" + file
  }

  // ---------------------------------------------------------------------------
  // URL quoting (`urllib.parse.quote` with its default `safe='/'`)

  /** Characters `quote` leaves alone. */
  predicate QuoteSafe(c: char) {
    ('a' <= c <= 'z') || ('A' <= c <= 'Z') || ('0' <= c <= '9')
    || c == '_' || c == '.' || c == '-' || c == '~' || c == '/'
  }

  /** The UTF-8 encoding of one character. */
  function Utf8(c: char): (r: seq<nat>)
    ensures 1 <= |r| <= 4
    ensures forall i :: 0 <= i < |r| ==> r[i] < 256
  {
    var n := c as int;
    if n < 0x80 then [n]
    else if n < 0x800 then [0xC0 + n / 64, 0x80 + n % 64]
    else if n < 0x1_0000 then [0xE0 + n / 4096, 0x80 + (n / 64) % 64, 0x80 + n % 64]
    else [0xF0 + n / 262144, 0x80 + (n / 4096) % 64, 0x80 + (n / 64) % 64, 0x80 + n % 64]
  }

  function PercentBytes(bs: seq<nat>): (r: string)
    requires forall i :: 0 <= i < |bs| ==> bs[i] < 256
    ensures |r| == 3 * |bs|
  {
    if bs == [] then ""
    else ['%', "0123456789ABCDEF"[bs[0] / 16], "0123456789ABCDEF"[bs[0] % 16]] + PercentBytes(bs[1..])
  }

  /** `urllib.parse.quote(s)` */
  function Quote(s: string): (r: string)
    ensures (forall i :: 0 <= i < |s| ==> QuoteSafe(s[i])) ==> r == s
    ensures |s| == 1 && !QuoteSafe(s[0]) ==> r == PercentBytes(Utf8(s[0]))
    ensures |r| >= |s|
  {
    if s == [] then ""
    else (if QuoteSafe(s[0]) then [s[0]] else PercentBytes(Utf8(s[0]))) + Quote(s[1..])
  }

  /** `quote` works character by character: with the single-character cases
      of its contract, this fixes its result on every string. */
  lemma {:induction false} QuoteConcat(a: string, b: string)
    ensures Quote(a + b) == Quote(a) + Quote(b)
    decreases |a|
  {
    if a == [] {
      assert a + b == b;
    } else {
      assert (a + b)[0] == a[0];
      assert (a + b)[1..] == a[1..] + b;
      QuoteConcat(a[1..], b);
    }
  }

  // ---------------------------------------------------------------------------
  // The pool directory of a source package

  /** `deb_lookup`: the one-character pool directories. */
  const DebLookup: seq<char> := "0234679abcdefghijkmnopqrstuvwxyz"

  /** `deb_lookup_l`: the four-character pool directories of `lib*` packages. */
  const DebLookupL: seq<string> := [
    "lib3", "liba", "libb", "libc", "libd", "libe", "libf",
    "libg", "libh", "libi", "libj", "libk", "libl", "libm", "libn", "libo",
    "libp", "libq", "libr", "libs", "libt", "libu", "libv", "libw", "libx",
    "liby", "libz"
  ]

  /** What `find_deb_prefix` gives back: a directory, `False`, or the
      IndexError `name[0]` raises on an empty name. */
  datatype DebPrefix = Prefix(dir: string) | NoPrefix | EmptyName

  /** `find_deb_prefix(name)` */
  function FindDebPrefix(name: string): (r: DebPrefix)
    ensures r == EmptyName <==> name == ""
    ensures r.Prefix? ==> StartsWith(name, r.dir) && (|r.dir| == 1 || |r.dir| == 4)
    ensures name != "" && name[0] != 'l' ==>
              r == (if name[0] in DebLookup then Prefix([name[0]]) else NoPrefix)
    ensures name != "" && name[0] == 'l' ==> r.Prefix? && (r.dir != "l" <==> r.dir in DebLookupL)
    ensures name != "" && name[0] == 'l' && |name| >= 4 && name[..4] in DebLookupL ==> r == Prefix(name[..4])
  {
    if name == "" then EmptyName
    else if name[0] != 'l' && name[0] in DebLookup then Prefix([name[0]])
    else if name[0] == 'l' then
      (if |name| >= 4 && name[..4] in DebLookupL then Prefix(name[..4]) else Prefix("l"))
    else NoPrefix
  }

  // ---------------------------------------------------------------------------
  // The link filter of `parse_page_deb`

  /** `list(filter(lambda x: not x.endswith("deb"), elements))` */
  function DropDebs(texts: seq<string>): (r: seq<string>) {
    if texts == [] then []
    else (if EndsWith(texts[0], "deb") then [] else [texts[0]]) + DropDebs(texts[1..])
  }

  /** `list(filter(lambda x: x.startswith(sv), elements))` */
  function KeepPrefixed(texts: seq<string>, sv: string): (r: seq<string>) {
    if texts == [] then []
    else (if StartsWith(texts[0], sv) then [texts[0]] else []) + KeepPrefixed(texts[1..], sv)
  }

  /** The file names of a release: `source_version.`, and not a `.deb`. */
  predicate SourceFileOf(x: string, source: string, version: string) {
    !EndsWith(x, "deb") && StartsWith(x, source + "_" + version + ".")
  }

  function PoolUrls(prefix: string, source: string, files: seq<string>): (r: seq<string>)
    ensures |r| == |files|
    ensures forall i :: 0 <= i < |files| ==> r[i] == DebUrl(prefix, source, files[i])
  {
    if files == [] then [] else [DebUrl(prefix, source, files[0])] + PoolUrls(prefix, source, files[1..])
  }

  /** `html.select('tr')[3:-1]`: the rows between the three header rows and
      the last one. */
  function BodyRows(rows: seq<Option<string>>): (r: seq<Option<string>>)
    ensures |rows| >= 4 ==> r == rows[3..|rows| - 1]
    ensures |rows| < 4 ==> r == []
  {
    Slice(rows, 3, -1)
  }

  /** The link texts of rows that all have a link. */
  function LinkTexts(body: seq<Option<string>>): (r: seq<string>)
    requires forall i :: 0 <= i < |body| ==> body[i].Some?
    ensures |r| == |body| && forall i :: 0 <= i < |body| ==> r[i] == body[i].value
  {
    seq(|body|, i requires 0 <= i < |body| => body[i].value)
  }

  /** `parse_page_deb` once BeautifulSoup has produced, for every `tr`, the text
      of its first `a` (None: a row without a link, whose `[0]` raises). Rows
      `[3:-1]` are kept; None when one of them has no link. */
  function ParsePageDeb(rows: seq<Option<string>>, source: string, version: string, prefix: string)
    : (r: Option<seq<string>>)
    ensures r.None? <==> exists i :: 3 <= i < |rows| - 1 && rows[i].None?
    ensures r.Some? ==> r.value == PoolUrls(prefix, source,
                                            KeepPrefixed(DropDebs(LinkTexts(BodyRows(rows))), source + "_" + version + "."))
  {
    var body := BodyRows(rows);
    assert forall i :: 0 <= i < |body| ==> body[i] == rows[i + 3];
    if exists i :: 0 <= i < |body| && body[i].None? then
      None
    else
      assert forall i :: 3 <= i < |rows| - 1 ==> rows[i] == body[i - 3];
      var kept := KeepPrefixed(DropDebs(LinkTexts(body)), source + "_" + version + ".");
      Some(PoolUrls(prefix, source, kept))
  }

  /** The URLs `parse_page_deb` returns are exactly the pool URLs of the link
      texts of rows `[3:-1]` that name a source file of the release. */
  lemma ParsePageDebUrls(rows: seq<Option<string>>, source: string, version: string, prefix: string, u: string)
    requires ParsePageDeb(rows, source, version, prefix).Some?
    ensures u in ParsePageDeb(rows, source, version, prefix).value <==>
              exists i :: 3 <= i < |rows| - 1 && rows[i].Some? && SourceFileOf(rows[i].value, source, version)
                          && u == DebUrl(prefix, source, rows[i].value)
  {
    var body := BodyRows(rows);
    var texts := LinkTexts(body);
    var kept := KeepPrefixed(DropDebs(texts), source + "_" + version + ".");
    var urls := PoolUrls(prefix, source, kept);
    LinkFilterMembers(texts, source, version);
    if u in urls {
      var j :| 0 <= j < |urls| && urls[j] == u;
      assert kept[j] in texts;
      var m :| 0 <= m < |texts| && texts[m] == kept[j];
      assert body[m] == rows[m + 3];
    }
    if exists i :: 3 <= i < |rows| - 1 && rows[i].Some? && SourceFileOf(rows[i].value, source, version)
                   && u == DebUrl(prefix, source, rows[i].value) {
      var i :| 3 <= i < |rows| - 1 && rows[i].Some? && SourceFileOf(rows[i].value, source, version)
               && u == DebUrl(prefix, source, rows[i].value);
      assert body[i - 3] == rows[i];
      assert texts[i - 3] in texts;
      var j :| 0 <= j < |kept| && kept[j] == rows[i].value;
      assert urls[j] == u;
    }
  }

  /** The two filters together keep exactly the release's source files, in
      their order: on every concatenation the result is the concatenation of the
      results, and on one link it is that link iff it is a source file. */
  lemma {:induction false} LinkFilterSplits(a: seq<string>, b: seq<string>, source: string, version: string)
    ensures var sv := source + "_" + version + ".";
            KeepPrefixed(DropDebs(a + b), sv) == KeepPrefixed(DropDebs(a), sv) + KeepPrefixed(DropDebs(b), sv)
    decreases |a|
  {
    var sv := source + "_" + version + ".";
    if a == [] {
      assert a + b == b;
    } else {
      LinkFilterSplits(a[1..], b, source, version);
      assert (a + b)[1..] == a[1..] + b;
      DropDebsSplits(a, b);
      KeepPrefixedSplits(DropDebs(a), DropDebs(b), sv);
    }
  }

  lemma {:induction false} DropDebsSplits(a: seq<string>, b: seq<string>)
    ensures DropDebs(a + b) == DropDebs(a) + DropDebs(b)
    decreases |a|
  {
    if a == [] {
      assert a + b == b;
    } else {
      assert (a + b)[1..] == a[1..] + b;
      DropDebsSplits(a[1..], b);
    }
  }

  lemma {:induction false} KeepPrefixedSplits(a: seq<string>, b: seq<string>, sv: string)
    ensures KeepPrefixed(a + b, sv) == KeepPrefixed(a, sv) + KeepPrefixed(b, sv)
    decreases |a|
  {
    if a == [] {
      assert a + b == b;
    } else {
      assert (a + b)[1..] == a[1..] + b;
      KeepPrefixedSplits(a[1..], b, sv);
    }
  }

  lemma LinkFilterOne(x: string, source: string, version: string)
    ensures KeepPrefixed(DropDebs([x]), source + "_" + version + ".")
            == if SourceFileOf(x, source, version) then [x] else []
  {
    assert [x][1..] == [];
  }

  /** Membership form: a link text ends up a URL of the result iff it is one of
      the release's source files. */
  lemma {:induction false} LinkFilterMembers(texts: seq<string>, source: string, version: string)
    ensures var kept := KeepPrefixed(DropDebs(texts), source + "_" + version + ".");
            forall x :: x in kept <==> x in texts && SourceFileOf(x, source, version)
    decreases |texts|
  {
    if texts != [] {
      LinkFilterMembers(texts[1..], source, version);
      assert texts == [texts[0]] + texts[1..];
      LinkFilterSplits([texts[0]], texts[1..], source, version);
      LinkFilterOne(texts[0], source, version);
    }
  }

  // ---------------------------------------------------------------------------
  // `download_from_snapshot`: up to ten curl attempts with exponential back-off

  const MaxRetries: nat := 10
  /** libcurl's CURLE_COULDNT_CONNECT, CURLE_PARTIAL_FILE and CURLE_ABORTED_BY_CALLBACK
      (the last is what the progress watchdog produces). */
  const CurlCouldntConnect: int := 7
  const CurlPartialFile: int := 18
  const CurlAbortedByCallback: int := 42

  predicate Retryable(code: int) {
    code == CurlPartialFile || code == CurlCouldntConnect || code == CurlAbortedByCallback
  }

  /** One `c.perform()`: either a response code with the bytes written to the
      buffer, or a `pycurl.error` with the bytes written before it. */
  datatype Attempt = Response(code: int, body: Bytes) | CurlError(code: int, partial: Bytes)

  /** An attempt after which the loop tries again (unless it was the last). */
  predicate Transient(a: Attempt) {
    match a
    case Response(code, _) => code != 404 && code != 200 && code != 206
    case CurlError(code, _) => Retryable(code)
  }

  /** How the call ends: the content, `MyHTTP404Exception`, a re-raised
      `pycurl.error`, or `Exception("failed too often...")`. */
  datatype SnapshotResult = Fetched(data: Bytes) | NotFound | CurlFailed(code: int) | FailedTooOften

  /** The result with the back-off sleeps taken (seconds) and, per attempt, the
      byte offset it resumed from (0: no RESUME_FROM). */
  datatype FetchRun = FetchRun(result: SnapshotResult, sleeps: seq<nat>, offsets: seq<nat>)

  function Pow4(k: nat): (r: nat)
    ensures r >= 1
  {
    if k == 0 then 1 else 4 * Pow4(k - 1)
  }

  /** How a non-transient attempt ends the call, the buffer holding `buf`. */
  function Final(a: Attempt, buf: Bytes): SnapshotResult
    requires !Transient(a)
  {
    match a
    case Response(code, body) => if code == 404 then NotFound else Fetched(buf + body)
    case CurlError(code, _) => CurlFailed(code)
  }

  /** The buffer the next attempt starts from: emptied after an HTTP error,
      kept (with the bytes received) after a curl error. */
  function Next(a: Attempt, buf: Bytes): Bytes {
    match a
    case Response(_, _) => []
    case CurlError(_, partial) => buf + partial
  }

  /** Attempts `n..` of `download_from_snapshot`, the buffer holding `buf`. */
  function Fetch(net: nat -> Attempt, n: nat, buf: Bytes): (r: FetchRun)
    requires n < MaxRetries
    decreases MaxRetries - n
  {
    var a := net(n);
    if !Transient(a) then FetchRun(Final(a, buf), [], [|buf|])
    else if n == MaxRetries - 1 then FetchRun(FailedTooOften, [], [|buf|])
    else Retried(Pow4(n + 1), |buf|, Fetch(net, n + 1, Next(a, buf)))
  }

  function Retried(sleep: nat, offset: nat, rest: FetchRun): FetchRun {
    FetchRun(rest.result, [sleep] + rest.sleeps, [offset] + rest.offsets)
  }

  /** The run `rest` of the later attempts, after the sleeps and offsets of the earlier ones. */
  function After(sleeps: seq<nat>, offsets: seq<nat>, rest: FetchRun): FetchRun {
    FetchRun(rest.result, sleeps + rest.sleeps, offsets + rest.offsets)
  }

  /** Attempt `n` is retried: its offset and its sleep move from the rest of
      the run to the part already taken. */
  lemma AfterRetry(net: nat -> Attempt, n: nat, buf: Bytes, sleeps: seq<nat>, offsets: seq<nat>)
    requires n < MaxRetries - 1 && Transient(net(n))
    ensures After(sleeps, offsets, Fetch(net, n, buf))
            == After(sleeps + [Pow4(n + 1)], offsets + [|buf|], Fetch(net, n + 1, Next(net(n), buf)))
  {
    var rest := Fetch(net, n + 1, Next(net(n), buf));
    assert Fetch(net, n, buf) == Retried(Pow4(n + 1), |buf|, rest);
    ConsAssoc(sleeps, Pow4(n + 1), rest.sleeps);
    ConsAssoc(offsets, |buf|, rest.offsets);
  }

  lemma ConsAssoc(a: seq<nat>, x: nat, b: seq<nat>)
    ensures a + ([x] + b) == a + [x] + b
  {
  }

  /** Attempt `n` ends the run, with the result `Fetch` gives it. */
  lemma AfterLast(net: nat -> Attempt, n: nat, buf: Bytes, sleeps: seq<nat>, offsets: seq<nat>)
    requires n < MaxRetries && !(n < MaxRetries - 1 && Transient(net(n)))
    ensures After(sleeps, offsets, Fetch(net, n, buf))
            == FetchRun(if Transient(net(n)) then FailedTooOften else Final(net(n), buf), sleeps, offsets + [|buf|])
  {
    assert sleeps + [] == sleeps;
  }

  lemma AfterNothing(r: FetchRun)
    ensures After([], [], r) == r
  {
    assert [] + r.sleeps == r.sleeps && [] + r.offsets == r.offsets;
  }

  /** One `c.perform()` into the buffer `buf` and the checks after it: the
      result when the attempt decides the call, otherwise the buffer the next
      attempt starts from. */
  method Perform(a: Attempt, buf: Bytes) returns (decided: Option<SnapshotResult>, next: Bytes)
    ensures decided.Some? <==> !Transient(a)
    ensures decided.Some? ==> decided.value == Final(a, buf)
    ensures decided.None? ==> next == Next(a, buf)
  {
    match a {
      case Response(code, body) =>
        next := buf + body;
        if code == 404 {
          decided := Some(NotFound);
        } else if code != 200 && code != 206 {
          // MyHTTPException: restart with an empty buffer
          decided := None;
          next := [];
        } else {
          decided := Some(Fetched(next));
        }
      case CurlError(code, partial) =>
        // the bytes received before the error stay in the buffer
        next := buf + partial;
        decided := if Retryable(code) then None else Some(CurlFailed(code));
    }
  }

  /** `download_from_snapshot(url)`, the network's answers being `net`. */
  method DownloadFromSnapshot(net: nat -> Attempt) returns (run: FetchRun)
    ensures run == Fetch(net, 0, [])
  {
    var f: Bytes := [];
    var sleeps: seq<nat> := [];
    var offsets: seq<nat> := [];
    var retrynum := 0;
    ghost var whole := Fetch(net, 0, []);
    AfterNothing(whole);
    while retrynum < MaxRetries
      invariant retrynum <= MaxRetries
      invariant retrynum < MaxRetries ==> whole == After(sleeps, offsets, Fetch(net, retrynum, f))
      invariant retrynum == MaxRetries ==> whole == FetchRun(FailedTooOften, sleeps, offsets)
      decreases MaxRetries - retrynum
    {
      // RESUME_FROM the bytes already in the buffer
      var resumeFrom := |f|;
      var decided, next := Perform(net(retrynum), f);
      if decided.Some? {
        AfterLast(net, retrynum, f, sleeps, offsets);
        offsets := offsets + [resumeFrom];
        return FetchRun(decided.value, sleeps, offsets);
      }
      if retrynum < MaxRetries - 1 {
        // back off before the next attempt
        AfterRetry(net, retrynum, f, sleeps, offsets);
        sleeps := sleeps + [Pow4(retrynum + 1)];
      } else {
        AfterLast(net, retrynum, f, sleeps, offsets);
      }
      offsets := offsets + [resumeFrom];
      f := next;
      retrynum := retrynum + 1;
    }
    return FetchRun(FailedTooOften, sleeps, offsets);
  }

  /** A call that does not retry at attempt `n` makes only that one attempt. */
  lemma SingleAttempt(net: nat -> Attempt, n: nat, buf: Bytes)
    requires n < MaxRetries
    requires !(Transient(net(n)) && n < MaxRetries - 1)
    ensures |Fetch(net, n, buf).offsets| == 1 && Fetch(net, n, buf).sleeps == []
  {
  }

  /** Retry bound: at most the attempts left, one sleep between two attempts. */
  lemma {:induction false} FetchBounds(net: nat -> Attempt, n: nat, buf: Bytes)
    requires n < MaxRetries
    ensures 1 <= |Fetch(net, n, buf).offsets| <= MaxRetries - n
    ensures |Fetch(net, n, buf).sleeps| == |Fetch(net, n, buf).offsets| - 1
    decreases MaxRetries - n
  {
    if Transient(net(n)) && n < MaxRetries - 1 {
      var buf' := Next(net(n), buf);
      FetchBounds(net, n + 1, buf');
      assert Fetch(net, n, buf) == Retried(Pow4(n + 1), |buf|, Fetch(net, n + 1, buf'));
    } else {
      SingleAttempt(net, n, buf);
    }
  }

  /** The sleeps `s` are 4^(n+1), 4^(n+2), ... */
  predicate BackoffFrom(s: seq<nat>, n: nat) {
    forall i :: 0 <= i < |s| ==> s[i] == Pow4(n + i + 1)
  }

  /** Back-off: the sleep after attempt `i` (0-based) lasts 4^(i+1) seconds. */
  lemma {:induction false} FetchBackoff(net: nat -> Attempt, n: nat, buf: Bytes)
    requires n < MaxRetries
    ensures BackoffFrom(Fetch(net, n, buf).sleeps, n)
    decreases MaxRetries - n
  {
    if Transient(net(n)) && n < MaxRetries - 1 {
      var buf' := Next(net(n), buf);
      var rest := Fetch(net, n + 1, buf');
      FetchBackoff(net, n + 1, buf');
      assert Fetch(net, n, buf) == Retried(Pow4(n + 1), |buf|, rest);
      BackoffCons(rest.sleeps, n);
    } else {
      SingleAttempt(net, n, buf);
    }
  }

  lemma BackoffCons(s: seq<nat>, n: nat)
    requires BackoffFrom(s, n + 1)
    ensures BackoffFrom([Pow4(n + 1)] + s, n)
  {
    var t := [Pow4(n + 1)] + s;
    forall i | 0 <= i < |t| ensures t[i] == Pow4(n + i + 1) {
      if i > 0 { assert t[i] == s[i - 1]; }
    }
  }

  /** The buffer attempt `k` starts from, attempts `n .. k-1` having been
      retried from the buffer `buf`. */
  function BufferAt(net: nat -> Attempt, n: nat, buf: Bytes, k: nat): Bytes
    requires n <= k
    decreases k - n
  {
    if n == k then buf else BufferAt(net, n + 1, Next(net(n), buf), k)
  }

  /** The first attempt that is not transient decides: after `k` transient
      attempts, an attempt that is not transient ends the call at attempt k+1,
      with the buffer it resumed from followed by its body on 200/206,
      `NotFound` on a 404 (never retried) and the curl error itself when it is
      not retryable; the sleeps taken are 4^1 .. 4^k. */
  lemma {:induction false} FirstDecisiveAttempt(net: nat -> Attempt, n: nat, buf: Bytes, k: nat)
    requires n <= k < MaxRetries
    requires forall i :: n <= i < k ==> Transient(net(i))
    requires !Transient(net(k))
    ensures var r := Fetch(net, n, buf);
            |r.offsets| == k - n + 1 && r.sleeps == Backoff(n, k)
            && (net(k).Response? && net(k).code == 404 ==> r.result == NotFound)
            && (net(k).Response? && net(k).code != 404 ==>
                  r.result == Fetched(BufferAt(net, n, buf, k) + net(k).body))
            && (net(k).CurlError? ==> r.result == CurlFailed(net(k).code))
    decreases k - n
  {
    if n < k {
      var buf' := Next(net(n), buf);
      FirstDecisiveAttempt(net, n + 1, buf', k);
      assert Fetch(net, n, buf) == Retried(Pow4(n + 1), |buf|, Fetch(net, n + 1, buf'));
    }
  }

  /** The sleeps between attempts n .. k: 4^(n+1), ..., 4^k. */
  function Backoff(n: nat, k: nat): (r: seq<nat>)
    requires n <= k
    decreases k - n
  {
    if n == k then [] else [Pow4(n + 1)] + Backoff(n + 1, k)
  }

  /** Ten transient attempts end in "failed too often", with nine sleeps. */
  lemma {:induction false} AllTransientFails(net: nat -> Attempt, n: nat, buf: Bytes)
    requires n < MaxRetries
    requires forall i :: n <= i < MaxRetries ==> Transient(net(i))
    ensures var r := Fetch(net, n, buf);
            r.result == FailedTooOften && |r.offsets| == MaxRetries - n
            && r.sleeps == Backoff(n, MaxRetries - 1)
    decreases MaxRetries - n
  {
    if n < MaxRetries - 1 {
      var buf' := Next(net(n), buf);
      AllTransientFails(net, n + 1, buf');
      assert Fetch(net, n, buf) == Retried(Pow4(n + 1), |buf|, Fetch(net, n + 1, buf'));
    }
  }

  /** Resumption: after an HTTP error at attempt `k` (the `i`-th counted from
      `n`) the buffer is reset, so the next attempt starts from 0 again; after
      a retryable curl error the buffer is kept and the next attempt resumes
      after the bytes already received. With `FirstOffset`, the first attempt
      starts from the bytes given, 0 in `download_from_snapshot`. */
  lemma {:induction false} ResumeOffsets(net: nat -> Attempt, n: nat, buf: Bytes, i: nat, k: nat)
    requires n < MaxRetries && k == n + i
    requires i + 1 < |Fetch(net, n, buf).offsets|
    ensures var offs := Fetch(net, n, buf).offsets;
            offs[i + 1] == if net(k).Response? then 0 else offs[i] + |net(k).partial|
    decreases MaxRetries - n, 1
  {
    MoreAttempts(net, n, buf);
    if i == 0 {
      ResumeFirst(net, n, buf);
    } else {
      ResumeLater(net, n, buf, i, k);
    }
  }

  /** The inductive step of `ResumeOffsets`: attempt `k` seen from attempt `n + 1`. */
  lemma {:induction false} ResumeLater(net: nat -> Attempt, n: nat, buf: Bytes, i: nat, k: nat)
    requires n < MaxRetries - 1 && Transient(net(n)) && 0 < i && k == n + i
    requires i + 1 < |Fetch(net, n, buf).offsets|
    ensures var offs := Fetch(net, n, buf).offsets;
            offs[i + 1] == if net(k).Response? then 0 else offs[i] + |net(k).partial|
    decreases MaxRetries - n, 0
  {
    var buf' := Next(net(n), buf);
    var rest := Fetch(net, n + 1, buf');
    RetryUnfold(net, n, buf);
    assert |rest.offsets| + 1 == |Fetch(net, n, buf).offsets|;
    ResumeOffsets(net, n + 1, buf', i - 1, k);
    ShiftedStep(Pow4(n + 1), |buf|, rest, i - 1, net(k));
  }

  /** A run with a second attempt retried its first one. */
  lemma MoreAttempts(net: nat -> Attempt, n: nat, buf: Bytes)
    requires n < MaxRetries && |Fetch(net, n, buf).offsets| >= 2
    ensures n < MaxRetries - 1 && Transient(net(n))
  {
    if !(Transient(net(n)) && n < MaxRetries - 1) {
      SingleAttempt(net, n, buf);
      assert false;
    }
  }

  /** The second attempt resumes from 0 after an HTTP error and after the
      received bytes after a curl error. */
  lemma ResumeFirst(net: nat -> Attempt, n: nat, buf: Bytes)
    requires n < MaxRetries - 1 && Transient(net(n))
    ensures var offs := Fetch(net, n, buf).offsets;
            |offs| >= 2 && offs[1] == if net(n).Response? then 0 else offs[0] + |net(n).partial|
  {
    var buf' := Next(net(n), buf);
    var rest := Fetch(net, n + 1, buf');
    RetryUnfold(net, n, buf);
    FirstOffset(net, n + 1, buf');
    RetriedOffset(Pow4(n + 1), |buf|, rest, 0);
  }

  lemma ShiftedStep(sleep: nat, offset: nat, rest: FetchRun, j: nat, a: Attempt)
    requires j + 1 < |rest.offsets|
    requires rest.offsets[j + 1] == if a.Response? then 0 else rest.offsets[j] + |a.partial|
    ensures var offs := Retried(sleep, offset, rest).offsets;
            offs[j + 2] == if a.Response? then 0 else offs[j + 1] + |a.partial|
  {
  }

  /** A retried attempt is followed by the run of the next one. */
  lemma RetryUnfold(net: nat -> Attempt, n: nat, buf: Bytes)
    requires n < MaxRetries - 1 && Transient(net(n))
    ensures Fetch(net, n, buf) == Retried(Pow4(n + 1), |buf|, Fetch(net, n + 1, Next(net(n), buf)))
  {
  }

  /** The offsets of a retried run: its own, then those of the rest. */
  lemma RetriedOffset(sleep: nat, offset: nat, rest: FetchRun, j: nat)
    requires j < |rest.offsets|
    ensures var offs := Retried(sleep, offset, rest).offsets;
            |offs| == |rest.offsets| + 1 && offs[0] == offset && offs[j + 1] == rest.offsets[j]
  {
  }

  /** Every attempt records the size of the buffer it resumes from. */
  lemma FirstOffset(net: nat -> Attempt, n: nat, buf: Bytes)
    requires n < MaxRetries
    ensures |Fetch(net, n, buf).offsets| >= 1 && Fetch(net, n, buf).offsets[0] == |buf|
  {
  }

  // ---------------------------------------------------------------------------
  // `retrieve_page`, `download_file`, `download_snap`, `download_deb`, `download`

  /** A plain `requests` GET: a status code with the content, or a RequestException. */
  datatype HttpResult = Http(status: nat, content: Bytes) | RequestError(text: string)

  /** The `(status, result, m)` triples, the log line `m` left out. */
  datatype Page = PageOk(content: Bytes) | PageError(phase: string, message: string)

  const RetrievePhase: string := "retrieving the url"

  /** `retrieve_page(url, snap=True)`, `snapshot` giving the curl attempts for
      each URL: any exception becomes the same error. */
  function RetrieveSnap(snapshot: string -> nat -> Attempt, url: string): (r: Page)
    ensures r.PageOk? <==> Fetch(snapshot(url), 0, []).result.Fetched?
    ensures r.PageOk? ==> r.content == Fetch(snapshot(url), 0, []).result.data
    ensures r.PageError? ==> r == PageError(RetrievePhase, "Url " + url + ": status Failed")
  {
    match Fetch(snapshot(url), 0, []).result
    case Fetched(data) => PageOk(data)
    case _ => PageError(RetrievePhase, "Url " + url + ": status Failed")
  }

  /** `retrieve_page(url)`, `http` giving the response to each GET. */
  function RetrieveHttp(http: string -> HttpResult, url: string): (r: Page)
    ensures r.PageOk? <==> http(url).Http? && http(url).status == 200
    ensures r.PageOk? ==> r.content == http(url).content
    ensures http(url).Http? && http(url).status != 200 ==>
              r == PageError(RetrievePhase, "Url " + url + ": status " + NatToString(http(url).status))
    ensures http(url).RequestError? ==> r == PageError(RetrievePhase, "Url " + url + ": error " + http(url).text)
  {
    match http(url)
    case Http(status, content) =>
      if status != 200 then PageError(RetrievePhase, "Url " + url + ": status " + NatToString(status))
      else PageOk(content)
    case RequestError(text) => PageError(RetrievePhase, "Url " + url + ": error " + text)
  }

  /** The outcome of a download: success, the error dictionary, or an exception
      that escapes (a failed HTML parse, `name[0]` on an empty name). */
  datatype Download = Downloaded | DownloadError(phase: string, message: string) | Raised

  /** The `for source_file_url in urls: download_file(...)` loops, `get` being
      the page retrieval: the first failing file ends the loop with its error. */
  function DownloadFiles(get: string -> Page, urls: seq<string>): (r: Download)
    ensures !r.Raised?
    ensures r == Downloaded <==> forall i :: 0 <= i < |urls| ==> get(urls[i]).PageOk?
  {
    if urls == [] then Downloaded
    else match get(urls[0])
      case PageError(phase, message) => DownloadError(phase, message)
      case PageOk(_) =>
        assert forall i :: 1 <= i < |urls| ==> urls[i] == urls[1..][i - 1];
        DownloadFiles(get, urls[1..])
  }

  /** The error of a failed download is that of the first file that failed. */
  lemma {:induction false} DownloadFilesFirstError(get: string -> Page, urls: seq<string>)
    requires DownloadFiles(get, urls).DownloadError?
    ensures var r := DownloadFiles(get, urls);
            exists i :: 0 <= i < |urls| && (forall j :: 0 <= j < i ==> get(urls[j]).PageOk?)
                        && get(urls[i]) == PageError(r.phase, r.message)
  {
    var r := DownloadFiles(get, urls);
    if get(urls[0]).PageOk? {
      DownloadFilesFirstError(get, urls[1..]);
      var i :| 0 <= i < |urls[1..]| && (forall j :: 0 <= j < i ==> get(urls[1..][j]).PageOk?)
               && get(urls[1..][i]) == PageError(r.phase, r.message);
      assert forall j :: 0 <= j < i + 1 ==> get(urls[j]).PageOk? by {
        forall j | 0 <= j < i + 1 ensures get(urls[j]).PageOk? {
          if j > 0 { assert urls[j] == urls[1..][j - 1]; }
        }
      }
      assert urls[i + 1] == urls[1..][i];
    } else {
      assert get(urls[0]) == PageError(r.phase, r.message);
    }
  }

  /** The snapshot side of the archive: curl attempts per URL, and the `href`s
      BeautifulSoup finds on an index page (None: `select(...)[0]` raises). */
  datatype SnapshotArchive = SnapshotArchive(
    attempts: string -> nat -> Attempt,
    links: Bytes -> Option<seq<string>>)

  /** The pool side: the GET responses, and per index page the text of each
      row's first link (None: a row without one). */
  datatype PoolArchive = PoolArchive(
    http: string -> HttpResult,
    rows: Bytes -> seq<Option<string>>)

  /** `download_snap(source, version, dir_name)` */
  function DownloadSnap(a: SnapshotArchive, source: string, version: string): (r: Download)
    ensures var index := RetrieveSnap(a.attempts, SnapUrl(source, Quote(version)));
            (index.PageError? ==> r == DownloadError(index.phase, index.message))
            && (index.PageOk? && a.links(index.content).None? ==> r.Raised?)
            && (index.PageOk? && a.links(index.content).Some? ==> !r.Raised?)
  {
    match RetrieveSnap(a.attempts, SnapUrl(source, Quote(version)))
    case PageError(phase, message) => DownloadError(phase, message)
    case PageOk(page) =>
      match a.links(page)
      case None => Raised
      case Some(hrefs) =>
        DownloadFiles(url => RetrieveSnap(a.attempts, url),
                      seq(|hrefs|, i requires 0 <= i < |hrefs| => DownloadUrl(hrefs[i])))
  }

  /** `download_deb(source, version, dir_name)`: it succeeds exactly when the
      package has a pool directory, its index page is retrieved and parsed, and
      every source file the index lists is retrieved. */
  function DownloadDeb(a: PoolArchive, source: string, version: string): (r: Download)
    ensures source == "" ==> r.Raised?
    ensures FindDebPrefix(source) == NoPrefix ==>
              r == DownloadError("find deb prefix", "Source " + source + ": error prefix not found")
    ensures FindDebPrefix(source).Prefix? ==>
              var prefix := FindDebPrefix(source).dir;
              var index := RetrieveHttp(a.http, DebUrl(prefix, source, ""));
              (index.PageError? ==> r == DownloadError(index.phase, index.message))
              && (index.PageOk? && ParsePageDeb(a.rows(index.content), source, version, prefix).None? ==> r.Raised?)
    ensures r == Downloaded <==>
              FindDebPrefix(source).Prefix?
              && var prefix := FindDebPrefix(source).dir;
                 var index := RetrieveHttp(a.http, DebUrl(prefix, source, ""));
                 index.PageOk?
                 && var urls := ParsePageDeb(a.rows(index.content), source, version, prefix);
                    urls.Some? && forall i :: 0 <= i < |urls.value| ==> RetrieveHttp(a.http, urls.value[i]).PageOk?
  {
    match FindDebPrefix(source)
    case EmptyName => Raised
    case NoPrefix => DownloadError("find deb prefix", "Source " + source + ": error prefix not found")
    case Prefix(prefix) =>
      match RetrieveHttp(a.http, DebUrl(prefix, source, ""))
      case PageError(phase, message) => DownloadError(phase, message)
      case PageOk(page) =>
        match ParsePageDeb(a.rows(page), source, version, prefix)
        case None => Raised
        case Some(urls) => DownloadFiles(url => RetrieveHttp(a.http, url), urls)
  }

  /** `download(source, version, dir_name)`: the snapshot attempt runs, but its
      status is overwritten with False, so unless it raises, the outcome is
      that of the pool download, whatever the snapshot archive answered. */
  function DownloadRelease(snap: SnapshotArchive, pool: PoolArchive, source: string, version: string)
    : (r: Download)
    ensures !DownloadSnap(snap, source, version).Raised? ==> r == DownloadDeb(pool, source, version)
    ensures DownloadSnap(snap, source, version).Raised? ==> r.Raised?
  {
    if DownloadSnap(snap, source, version).Raised? then Raised
    else DownloadDeb(pool, source, version)
  }
}
