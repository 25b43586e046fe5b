/** `Analyser` of kafka_sbuild_cscout_consumer/entrypoint.py, the earlier
    consumer: it downloads the files of a release from snapshot.debian.org,
    runs sbuild, and reads the report in a single pass, sending errors and call
    graphs as it goes. */
module CScoutAnalyser {
  import opened Text
  import opened Report
  import Package
  import Fetch
  import Admission

  /** The `error_msg` dictionary; the release fields are set once, `datetime`
      is left out. */
  datatype ErrorMsg = ErrorMsg(package: string, version: string, dist: string, arch: string,
                               phase: string, errType: string, message: string)

  /** What the analyser sends: to the error topic, or to the call-graph topic. */
  datatype Message = ErrorSent(error: ErrorMsg) | GraphSent(graph: map<string, string>)

  /** The fields of an `Analyser`. `page` is the last index page retrieved. */
  datatype State = State(errorMsg: ErrorMsg, status: string, urls: seq<string>,
                         binaryPkgs: seq<string>, page: Fetch.Bytes, events: seq<Message>)

  datatype Run = Run(state: State, outcome: Outcome)

  /** The same layout as the newer plugin's `PackageState`. */
  function AsRelease(k: Admission.ReleaseKey): Package.Release {
    Package.Release(k.source, k.version, k.dist, k.arch, "debian")
  }

  /** `self.dir_name` */
  function DirName(k: Admission.ReleaseKey): string {
    Package.DirName(AsRelease(k))
  }

  /** `self.callgraph_dir` */
  function CallgraphDir(k: Admission.ReleaseKey): string {
    Package.CallgraphDir(AsRelease(k))
  }

  /** `self.url` */
  function Url(k: Admission.ReleaseKey): string {
    Fetch.SnapUrl(k.source, k.version)
  }

  /** `callgraph_dir` is the absolute callgraphs/package/dist/version/arch,
      and `url` the snapshot page of the unquoted version. */
  lemma AnalyserPaths(k: Admission.ReleaseKey)
    requires '/' !in k.source && '/' !in k.version && '/' !in k.dist && '/' !in k.arch
    ensures Split(CallgraphDir(k), "/") == ["", "callgraphs", k.source, k.dist, k.version, k.arch, ""]
    ensures Url(k) == "https://snapshot.debian.org/package/" + k.source + "/" + k.version + "/"
  {
    Package.CallgraphDirFields(AsRelease(k));
  }

  /** `dir_name` is package-dist-arch-version: joined with `-` for every
      release, and split back into its fields when none of them holds a `-`. */
  lemma AnalyserDirName(k: Admission.ReleaseKey)
    ensures DirName(k) == Join([k.source, k.dist, k.arch, k.version], "-")
    ensures '-' !in k.source && '-' !in k.version && '-' !in k.dist && '-' !in k.arch ==>
              Split(DirName(k), "-") == [k.source, k.dist, k.arch, k.version]
  {
    Package.DirNameJoin(AsRelease(k));
    if '-' !in k.source && '-' !in k.version && '-' !in k.dist && '-' !in k.arch {
      Package.DirNameFields(AsRelease(k));
    }
  }

  function InitialError(k: Admission.ReleaseKey): ErrorMsg {
    ErrorMsg(k.source, k.version, k.dist, k.arch, "", "", "")
  }

  function Fail(s: State, phase: string, message: string): (r: State)
    ensures r.errorMsg.phase == phase && r.errorMsg.message == message
    ensures r.events == s.events && r.urls == s.urls
  {
    s.(errorMsg := s.errorMsg.(phase := phase, message := message))
  }

  /** `_produce_error_to_kafka` */
  function SendError(s: State): (r: State)
    ensures r.events == s.events + [ErrorSent(s.errorMsg)]
  {
    s.(events := s.events + [ErrorSent(s.errorMsg)])
  }

  datatype Retrieved = Retrieved(state: State, outcome: Outcome, content: Fetch.Bytes)

  /** `_retrieve_page(url)`: a status other than 200 or a request exception
      sets the `downloading` phase and raises. */
  function RetrieveOutcome(http: string -> Fetch.HttpResult, url: string, s: State): (r: Retrieved)
    ensures r.outcome != Uncaught
    ensures r.outcome == Ok <==> http(url).Http? && http(url).status == 200
    ensures r.outcome == Ok ==> r.state == s && r.content == http(url).content
    ensures r.outcome == Raised ==> r.state.errorMsg.phase == "downloading"
                                    && r.state.events == s.events && r.state.urls == s.urls
  {
    var page := Fetch.RetrieveHttp(http, url);
    if page.PageOk? then Retrieved(s, Ok, page.content)
    else Retrieved(Fail(s, "downloading", page.message), Raised, [])
  }

  /** The loop of `_download_files` over the source file URLs. */
  function FilesOutcome(http: string -> Fetch.HttpResult, s: State, urls: seq<string>): (r: Run)
    ensures r.outcome != Uncaught && r.state.events == s.events && r.state.urls == s.urls
    ensures r.outcome == Ok <==> forall i :: 0 <= i < |urls| ==>
              http(Fetch.DownloadUrl(urls[i])).Http? && http(Fetch.DownloadUrl(urls[i])).status == 200
    decreases |urls|
  {
    if urls == [] then Run(s, Ok)
    else
      var f := RetrieveOutcome(http, Fetch.DownloadUrl(urls[0]), s);
      if f.outcome != Ok then Run(f.state, f.outcome)
      else
        var rest := FilesOutcome(http, f.state, urls[1..]);
        assert forall i :: 1 <= i < |urls| ==> urls[i] == urls[1..][i - 1];
        rest
  }

  /** What the network, the build and the file system answer. */
  datatype Environment = Environment(
    http: string -> Fetch.HttpResult,
    /** the `href`s `_parse_page` finds on an index page (None: it raises) */
    links: Fetch.Bytes -> Option<seq<string>>,
    dscFiles: nat,
    files: map<string, seq<string>>,
    graphs: map<string, GraphFile>)

  /** `_download_files`: the index page, its links appended to `urls`, then every file. */
  function DownloadFilesOutcome(env: Environment, k: Admission.ReleaseKey, s: State): (r: Run)
    ensures r.state.events == s.events
  {
    var index := RetrieveOutcome(env.http, Url(k), s);
    if index.outcome != Ok then Run(index.state, index.outcome)
    else
      var s1 := index.state.(page := index.content);
      match env.links(s1.page)
      case None => Run(s1, Uncaught)
      case Some(hrefs) =>
        var s2 := s1.(urls := s1.urls + hrefs);
        FilesOutcome(env.http, s2, s2.urls)
  }

  const DscMessage: string := "Cannot find .dsc file or found multiple"

  datatype Sbuild = Sbuild(run: Run, cwd: string)

  /** `_run_sbuild`: the old directory is restored only on the normal path;
      without exactly one `.dsc` file it raises inside `dir_name`. */
  function SbuildOutcome(env: Environment, k: Admission.ReleaseKey, cwd: string, s: State): (r: Sbuild)
    ensures r.run.outcome != Uncaught && r.run.state.events == s.events
    ensures r.run.outcome == Ok <==> env.dscFiles == 1
    ensures r.run.outcome == Ok ==> r.cwd == cwd && r.run.state == s
    ensures r.run.outcome == Raised ==> r.cwd == PathJoin(cwd, DirName(k))
                                        && r.run.state == Fail(s, "run_sbuild", DscMessage)
  {
    if env.dscFiles != 1 then Sbuild(Run(Fail(s, "run_sbuild", DscMessage), Raised), PathJoin(cwd, DirName(k)))
    else Sbuild(Run(s, Ok), cwd)
  }

  /** `_produce_cg_to_kafka(path)` */
  function ProduceCg(graphs: map<string, GraphFile>, s: State, path: string): (r: Run)
    ensures path + "fcg.json" !in graphs <==> r.outcome == Raised
    ensures r.outcome == Raised ==> r.state == Fail(s, "read_fcg", "File not found: " + path + "fcg.json")
    ensures r.outcome == Ok ==> (graphs[path + "fcg.json"].Parsed?
              && r.state == s.(events := s.events + [GraphSent(graphs[path + "fcg.json"].fields)]))
    ensures r.outcome == Uncaught ==> r.state == s
  {
    var file := path + "fcg.json";
    if file !in graphs then Run(Fail(s, "read_fcg", "File not found: " + file), Raised)
    else match graphs[file]
      case Unparsable => Run(s, Uncaught)
      case Parsed(graph) => Run(s.(events := s.events + [GraphSent(graph)]), Ok)
  }

  /** A fatal checkpoint (`build`, `detect_binaries`, `produce_debs`):
      `log[1] == 'failed'` raises with the line's phase and message. */
  function FatalCheck(s: State, log: Fields): (r: Run)
    ensures r.state.events == s.events
    ensures r.outcome == Uncaught <==> |log| < 2
    ensures |log| >= 2 ==> (r.outcome == Raised <==> log[1] == "failed")
    ensures r.outcome != Raised ==> r.state == s
    ensures r.outcome == Raised ==> |log| >= 2 && r.state == Fail(s, FatalPhase(log[0]), FatalMessage(log[0]))
  {
    if |log| < 2 then Run(s, Uncaught)
    else if log[1] != "failed" then Run(s, Ok)
    else Run(Fail(s, FatalPhase(log[0]), FatalMessage(log[0])), Raised)
  }

  function FatalPhase(key: string): string {
    if key == "produce_debs" then "detect_binaries" else key
  }

  function FatalMessage(key: string): string {
    if key == "build" then "Build failed"
    else if key == "detect_binaries" then "No binaries found"
    else "Produce debian packages failed"
  }

  /** A non-fatal checkpoint (`analysis`, `produce_callgraph`):
      `log[2] == 'failed'` sends an error of type `log[3]` whose message is
      `log[1]` and goes on. */
  function NonFatalCheck(s: State, log: Fields): (r: Run)
    ensures r.outcome != Raised
    ensures r.state.events == s.events || r.state.events == s.events + [ErrorSent(r.state.errorMsg)]
    ensures r.outcome == Uncaught <==> |log| < 3 || (log[2] == "failed" && |log| < 4)
    ensures r.state.events != s.events <==> |log| >= 4 && log[2] == "failed"
    ensures |log| >= 3 && log[2] != "failed" ==> r == Run(s, Ok)
    ensures |log| >= 4 && log[2] == "failed" ==>
              r == Run(SendError(s.(errorMsg := s.errorMsg.(phase := log[0], errType := log[3], message := log[1]))), Ok)
  {
    if |log| < 3 then Run(s, Uncaught)
    else if log[2] != "failed" then Run(s, Ok)
    else
      var s1 := s.(errorMsg := s.errorMsg.(phase := log[0]));
      if |log| < 4 then Run(s1, Uncaught)
      else Run(SendError(s1.(errorMsg := s1.errorMsg.(errType := log[3], message := log[1]))), Ok)
  }

  /** `produce_callgraph`: a failure as for `analysis`, a success sends the
      package's call graph. */
  function CallgraphCheck(k: Admission.ReleaseKey, graphs: map<string, GraphFile>, s: State, log: Fields)
    : (r: Run)
    requires log[0] == "produce_callgraph"
  {
    if |log| >= 3 && log[2] == "success" then
      ProduceCg(graphs, s.(status := "done"), CallgraphDir(k) + "/" + log[1] + "/")
    else NonFatalCheck(s, log)
  }

  /** One line of the report loop of `_check_analysis_result`. */
  function LineOutcome(k: Admission.ReleaseKey, graphs: map<string, GraphFile>, s: State, line: string): (r: Run)
  {
    if Comment(line) then Run(s, Ok) else LogOutcome(k, graphs, s, ParseLine(line))
  }

  /** One record of the report, by its key. */
  function LogOutcome(k: Admission.ReleaseKey, graphs: map<string, GraphFile>, s: State, log: Fields): (r: Run)
    requires |log| >= 1
  {
    if log[0] == "build" || log[0] == "detect_binaries" || log[0] == "produce_debs" then FatalCheck(s, log)
    else if log[0] == "analysis" then NonFatalCheck(s, log)
    else if log[0] == "detect_packages" then
      if |log| < 2 then Run(s, Uncaught) else Run(s.(binaryPkgs := Split(log[1], " ")), Ok)
    else if log[0] == "produce_callgraph" then CallgraphCheck(k, graphs, s, log)
    else Run(s, Ok)
  }

  /** The report loop: line by line until the first line that raises. */
  function LinesOutcome(k: Admission.ReleaseKey, graphs: map<string, GraphFile>, s: State, lines: seq<string>)
    : (r: Run)
    decreases |lines|
  {
    if lines == [] then Run(s, Ok)
    else
      var step := LineOutcome(k, graphs, s, lines[0]);
      if step.outcome != Ok then step else LinesOutcome(k, graphs, step.state, lines[1..])
  }

  /** `_check_analysis_result`. The missing-report message has a second `/`
      before `report`. */
  function AnalysisOutcome(k: Admission.ReleaseKey, files: map<string, seq<string>>,
                           graphs: map<string, GraphFile>, s: State): (r: Run)
    ensures CallgraphDir(k) + "report" !in files ==>
              r == Run(Fail(s, "report", "File not found: " + CallgraphDir(k) + "/report"), Raised)
    ensures CallgraphDir(k) + "report" in files ==>
              r == LinesOutcome(k, graphs, s, files[CallgraphDir(k) + "report"])
  {
    var report := CallgraphDir(k) + "report";
    if report !in files then Run(Fail(s, "report", "File not found: " + CallgraphDir(k) + "/report"), Raised)
    else LinesOutcome(k, graphs, s, files[report])
  }

  /** The steps of `analyse` up to the first that raises, and the working
      directory then. */
  function Steps(env: Environment, k: Admission.ReleaseKey, cwd: string, s: State): Sbuild {
    var d := DownloadFilesOutcome(env, k, s);
    if d.outcome != Ok then Sbuild(d, cwd)
    else
      var b := SbuildOutcome(env, k, cwd, d.state);
      if b.run.outcome != Ok then b
      else Sbuild(AnalysisOutcome(k, env.files, env.graphs, b.run.state), b.cwd)
  }

  /** The fields after `analyse()`; `finished` is false when an exception
      other than `AnalyserError` escaped. */
  datatype Analysed = Analysed(state: State, cwd: string, finished: bool)

  /** `analyse()`: an `AnalyserError` is caught and sent as one error. */
  function AnalyseOutcome(env: Environment, k: Admission.ReleaseKey, cwd: string, s: State): (r: Analysed)
  {
    var st := Steps(env, k, cwd, s);
    if st.run.outcome == Uncaught then Analysed(st.run.state, st.cwd, false)
    else if st.run.outcome == Raised then Analysed(SendError(st.run.state), st.cwd, true)
    else Analysed(st.run.state, st.cwd, true)
  }

  /** The report is read line by line: the outcome on `a + b` is that on `a`
      if a line of `a` raises, and otherwise `b` goes on from there. */
  lemma {:induction false} LinesAppend(k: Admission.ReleaseKey, graphs: map<string, GraphFile>, s: State,
                                       a: seq<string>, b: seq<string>)
    ensures LinesOutcome(k, graphs, s, a + b) ==
            var r := LinesOutcome(k, graphs, s, a);
            if r.outcome != Ok then r else LinesOutcome(k, graphs, r.state, b)
    decreases |a|
  {
    if a == [] {
      assert a + b == b;
    } else {
      assert (a + b)[0] == a[0];
      assert (a + b)[1..] == a[1..] + b;
      var step := LineOutcome(k, graphs, s, a[0]);
      if step.outcome == Ok {
        LinesAppend(k, graphs, step.state, a[1..], b);
      }
    }
  }

  /** A line that is not a comment and reports a fatal checkpoint as failed. */
  predicate FatalLine(line: string) {
    var log := ParseLine(line);
    !Comment(line) && (log[0] == "build" || log[0] == "detect_binaries" || log[0] == "produce_debs")
    && |log| >= 2 && log[1] == "failed"
  }

  /** Single pass: the first fatal line raises with its phase and message;
      what was sent before it stays sent, and nothing after it is read. */
  lemma FirstFatalAborts(k: Admission.ReleaseKey, graphs: map<string, GraphFile>, s: State,
                         before: seq<string>, line: string, after: seq<string>)
    requires FatalLine(line)
    requires LinesOutcome(k, graphs, s, before).outcome == Ok
    ensures var prior := LinesOutcome(k, graphs, s, before).state;
            var key := ParseLine(line)[0];
            LinesOutcome(k, graphs, s, before + [line] + after)
            == Run(Fail(prior, FatalPhase(key), FatalMessage(key)), Raised)
  {
    assert before + [line] + after == before + ([line] + after);
    LinesAppend(k, graphs, s, before, [line] + after);
    var prior := LinesOutcome(k, graphs, s, before).state;
    FatalLineRaises(k, graphs, prior, line);
    LinesFirst(k, graphs, prior, line, after);
  }

  /** A fatal line raises with its phase and message. */
  lemma FatalLineRaises(k: Admission.ReleaseKey, graphs: map<string, GraphFile>, s: State, line: string)
    requires FatalLine(line)
    ensures var key := ParseLine(line)[0];
            LineOutcome(k, graphs, s, line) == Run(Fail(s, FatalPhase(key), FatalMessage(key)), Raised)
  {
  }

  /** The loop reads the first line first. */
  lemma LinesFirst(k: Admission.ReleaseKey, graphs: map<string, GraphFile>, s: State, line: string,
                   rest: seq<string>)
    ensures var step := LineOutcome(k, graphs, s, line);
            LinesOutcome(k, graphs, s, [line] + rest)
            == if step.outcome != Ok then step else LinesOutcome(k, graphs, step.state, rest)
  {
    assert ([line] + rest)[0] == line;
    assert ([line] + rest)[1..] == rest;
  }

  /** Comment lines change nothing. */
  lemma CommentSkipped(k: Admission.ReleaseKey, graphs: map<string, GraphFile>, s: State,
                       line: string, rest: seq<string>)
    requires Comment(line)
    ensures LinesOutcome(k, graphs, s, [line] + rest) == LinesOutcome(k, graphs, s, rest)
  {
    assert ([line] + rest)[1..] == rest;
  }

  /** `detect_packages` stores the package names: its value split on spaces,
      that is pieces without a space which joined with spaces give the value back. */
  lemma DetectPackages(k: Admission.ReleaseKey, graphs: map<string, GraphFile>, s: State, line: string)
    requires !Comment(line)
    requires ParseLine(line)[0] == "detect_packages" && |ParseLine(line)| >= 2
    ensures var r := LineOutcome(k, graphs, s, line);
            r.outcome == Ok && r.state == s.(binaryPkgs := r.state.binaryPkgs)
            && Join(r.state.binaryPkgs, " ") == ParseLine(line)[1]
            && forall p :: p in r.state.binaryPkgs ==> !Contains(p, " ")
  {
    JoinSplit(ParseLine(line)[1], " ");
    SplitPiecesFree(ParseLine(line)[1], " ");
  }

  /** The call graphs sent before an abort are those of the success lines
      before it: with no line raising, one graph per success line, in order. */
  predicate SuccessLine(line: string) {
    !Comment(line) && ParseLine(line)[0] == "produce_callgraph" && |ParseLine(line)| >= 3
    && ParseLine(line)[2] == "success"
  }

  function SuccessCount(lines: seq<string>): nat {
    if lines == [] then 0 else (if SuccessLine(lines[0]) then 1 else 0) + SuccessCount(lines[1..])
  }

  function GraphCount(events: seq<Message>): nat {
    if events == [] then 0 else (if events[0].GraphSent? then 1 else 0) + GraphCount(events[1..])
  }

  lemma {:induction false} GraphCountAppend(a: seq<Message>, b: seq<Message>)
    ensures GraphCount(a + b) == GraphCount(a) + GraphCount(b)
    decreases |a|
  {
    if a == [] {
      assert a + b == b;
    } else {
      assert (a + b)[0] == a[0];
      assert (a + b)[1..] == a[1..] + b;
      GraphCountAppend(a[1..], b);
    }
  }

  /** A line that does not raise sends at most one message: the call graph
      of a success line, or the error of a non-fatal failure. */
  lemma OneLineGraphs(k: Admission.ReleaseKey, graphs: map<string, GraphFile>, s: State, line: string)
    requires LineOutcome(k, graphs, s, line).outcome == Ok
    ensures var r := LineOutcome(k, graphs, s, line).state;
            |s.events| <= |r.events| && r.events[..|s.events|] == s.events
            && GraphCount(r.events) == GraphCount(s.events) + (if SuccessLine(line) then 1 else 0)
  {
    var r := LineOutcome(k, graphs, s, line).state;
    if SuccessLine(line) {
      SuccessLineSends(k, graphs, s, line);
      SentOne(s.events, r.events[|s.events|]);
    } else {
      OtherLineSends(k, graphs, s, line);
      SentNoGraph(s.events, r.events, FailureLine(line), if FailureLine(line) then FailureError(s, line) else s.errorMsg);
    }
  }

  /** Nothing, or one error, adds no call graph. */
  lemma SentNoGraph(es: seq<Message>, rs: seq<Message>, failed: bool, e: ErrorMsg)
    requires failed ==> rs == es + [ErrorSent(e)]
    requires !failed ==> rs == es
    ensures |es| <= |rs| && rs[..|es|] == es && GraphCount(rs) == GraphCount(es)
  {
    if failed {
      SentOne(es, ErrorSent(e));
    } else {
      assert rs[..|es|] == es;
    }
  }

  /** One more message keeps the earlier ones and counts if it is a call graph. */
  lemma SentOne(es: seq<Message>, m: Message)
    ensures (es + [m])[..|es|] == es
    ensures GraphCount(es + [m]) == GraphCount(es) + (if m.GraphSent? then 1 else 0)
  {
    GraphCountAppend(es, [m]);
  }

  /** A success line that does not raise sets the status to `done` and sends one call graph. */
  lemma SuccessLineSends(k: Admission.ReleaseKey, graphs: map<string, GraphFile>, s: State, line: string)
    requires SuccessLine(line) && LineOutcome(k, graphs, s, line).outcome == Ok
    ensures LineOutcome(k, graphs, s, line).state.status == "done"
    ensures var es := LineOutcome(k, graphs, s, line).state.events;
            |es| == |s.events| + 1 && es == s.events + [es[|s.events|]] && es[|s.events|].GraphSent?
  {
    var log := ParseLine(line);
    assert LineOutcome(k, graphs, s, line) == CallgraphCheck(k, graphs, s, log);
  }

  /** A failure line of a non-fatal checkpoint, with the error type in field 3. */
  predicate FailureLine(line: string) {
    var log := ParseLine(line);
    !Comment(line) && (log[0] == "analysis" || log[0] == "produce_callgraph")
    && |log| >= 4 && log[2] == "failed"
  }

  /** The error a failure line sends: its phase `log[0]`, its type `log[3]`
      and its message `log[1]`. */
  function FailureError(s: State, line: string): ErrorMsg
    requires FailureLine(line)
  {
    var log := ParseLine(line);
    s.errorMsg.(phase := log[0], errType := log[3], message := log[1])
  }

  /** A failure line of `analysis` or `produce_callgraph` sends exactly one
      error, with the line's phase, type and message, and the loop goes on. */
  lemma FailureLineSends(k: Admission.ReleaseKey, graphs: map<string, GraphFile>, s: State, line: string)
    requires FailureLine(line)
    ensures LineOutcome(k, graphs, s, line)
            == Run(s.(errorMsg := FailureError(s, line), events := s.events + [ErrorSent(FailureError(s, line))]), Ok)
  {
    var log := ParseLine(line);
    if log[0] == "produce_callgraph" {
      assert LineOutcome(k, graphs, s, line) == NonFatalCheck(s, log);
    }
  }

  /** Any other line that does not raise sends one error exactly when it is
      a failure line, and nothing otherwise. */
  lemma OtherLineSends(k: Admission.ReleaseKey, graphs: map<string, GraphFile>, s: State, line: string)
    requires !SuccessLine(line) && LineOutcome(k, graphs, s, line).outcome == Ok
    ensures var r := LineOutcome(k, graphs, s, line).state;
            (FailureLine(line) ==> r.events == s.events + [ErrorSent(FailureError(s, line))])
            && (!FailureLine(line) ==> r.events == s.events)
  {
    if FailureLine(line) {
      FailureLineSends(k, graphs, s, line);
    } else if !Comment(line) {
      OtherLogSends(k, graphs, s, ParseLine(line));
    }
  }

  lemma OtherLogSends(k: Admission.ReleaseKey, graphs: map<string, GraphFile>, s: State, log: Fields)
    requires |log| >= 1 && !(log[0] == "produce_callgraph" && |log| >= 3 && log[2] == "success")
    requires !((log[0] == "analysis" || log[0] == "produce_callgraph") && |log| >= 4 && log[2] == "failed")
    requires LogOutcome(k, graphs, s, log).outcome == Ok
    ensures LogOutcome(k, graphs, s, log).state.events == s.events
  {
    if log[0] == "produce_callgraph" {
      assert LogOutcome(k, graphs, s, log) == NonFatalCheck(s, log);
    }
  }

  lemma {:induction false} CompletedGraphs(k: Admission.ReleaseKey, graphs: map<string, GraphFile>, s: State,
                                           lines: seq<string>)
    requires LinesOutcome(k, graphs, s, lines).outcome == Ok
    ensures var r := LinesOutcome(k, graphs, s, lines).state;
            GraphCount(r.events) == GraphCount(s.events) + SuccessCount(lines)
    decreases |lines|
  {
    if lines != [] {
      var step := LineOutcome(k, graphs, s, lines[0]);
      OneLineGraphs(k, graphs, s, lines[0]);
      CompletedGraphs(k, graphs, step.state, lines[1..]);
    }
  }

  /** `analyse` sends exactly one error for the `AnalyserError` that ended it,
      after everything the steps sent, carrying the phase the step set. */
  lemma CaughtErrorSentOnce(env: Environment, k: Admission.ReleaseKey, cwd: string, s: State)
    requires Steps(env, k, cwd, s).run.outcome == Raised
    ensures var st := Steps(env, k, cwd, s).run.state;
            var r := AnalyseOutcome(env, k, cwd, s);
            r.finished && r.state.events == st.events + [ErrorSent(st.errorMsg)]
  {
  }

  /** A missing report: the phase is `report` and exactly one error is sent for it. */
  lemma MissingReport(env: Environment, k: Admission.ReleaseKey, cwd: string, s: State)
    requires DownloadFilesOutcome(env, k, s).outcome == Ok && env.dscFiles == 1
    requires CallgraphDir(k) + "report" !in env.files
    ensures var d := DownloadFilesOutcome(env, k, s).state;
            var r := AnalyseOutcome(env, k, cwd, s);
            r.finished && r.cwd == cwd
            && r.state.events == d.events + [ErrorSent(d.errorMsg.(phase := "report",
                                                 message := "File not found: " + CallgraphDir(k) + "/report"))]
  {
  }

  /** The analyser; `events` are the messages it has sent and `cwd` the
      process's working directory. */
  class Analyser {
    const release: Admission.ReleaseKey
    var status: string
    var urls: seq<string>
    var errorMsg: ErrorMsg
    var binaryPkgs: seq<string>
    var page: Fetch.Bytes
    var events: seq<Message>
    var cwd: string

    constructor (release: Admission.ReleaseKey, cwd: string)
      ensures this.release == release && this.cwd == cwd
      ensures Snapshot() == State(InitialError(release), "", [], [], [], [])
    {
      this.release := release;
      this.cwd := cwd;
      status := "";
      urls := [];
      errorMsg := InitialError(release);
      binaryPkgs := [];
      page := [];
      events := [];
    }

    function Snapshot(): State
      reads this
    {
      State(errorMsg, status, urls, binaryPkgs, page, events)
    }

    method ProduceErrorToKafka()
      modifies this
      ensures Snapshot() == SendError(old(Snapshot())) && cwd == old(cwd)
    {
      events := events + [ErrorSent(errorMsg)];
    }

    /** `_retrieve_page(url)` */
    method RetrievePage(http: string -> Fetch.HttpResult, url: string) returns (o: Outcome, content: Fetch.Bytes)
      modifies this
      ensures Retrieved(Snapshot(), o, content) == RetrieveOutcome(http, url, old(Snapshot())) && cwd == old(cwd)
    {
      match http(url)
      case Http(status, body) =>
        if status != 200 {
          errorMsg := errorMsg.(phase := "downloading", message := "Url " + url + ": status " + NatToString(status));
          return Raised, [];
        }
        return Ok, body;
      case RequestError(text) =>
        errorMsg := errorMsg.(phase := "downloading", message := "Url " + url + ": error " + text);
        return Raised, [];
    }

    /** `_download_files()` */
    method DownloadFiles(env: Environment) returns (o: Outcome)
      modifies this
      ensures Run(Snapshot(), o) == DownloadFilesOutcome(env, release, old(Snapshot())) && cwd == old(cwd)
    {
      var content;
      o, content := RetrievePage(env.http, Url(release));
      if o != Ok {
        return;
      }
      page := content;
      match env.links(page)
      case None =>
        return Uncaught;
      case Some(hrefs) =>
        urls := urls + hrefs;
        o := RetrieveListed(env.http);
    }

    /** The loop of `_download_files()` over `self.urls`. */
    method RetrieveListed(http: string -> Fetch.HttpResult) returns (o: Outcome)
      modifies this
      ensures Run(Snapshot(), o) == FilesOutcome(http, old(Snapshot()), old(urls)) && cwd == old(cwd)
    {
      ghost var s2 := Snapshot();
      var i := 0;
      while i < |urls|
        invariant 0 <= i <= |urls| && urls == s2.urls
        invariant FilesOutcome(http, s2, s2.urls) == FilesOutcome(http, Snapshot(), urls[i..])
        invariant cwd == old(cwd)
      {
        assert urls[i..][0] == urls[i];
        assert urls[i..][1..] == urls[i + 1..];
        var c;
        o, c := RetrievePage(http, Fetch.DownloadUrl(urls[i]));
        if o != Ok {
          return;
        }
        i := i + 1;
      }
      return Ok;
    }

    /** `_run_sbuild()` */
    method RunSbuild(env: Environment) returns (o: Outcome)
      modifies this
      ensures var b := SbuildOutcome(env, release, old(cwd), old(Snapshot()));
              Run(Snapshot(), o) == b.run && cwd == b.cwd
    {
      var oldCwd := cwd;
      cwd := PathJoin(cwd, DirName(release));
      if env.dscFiles != 1 {
        errorMsg := errorMsg.(phase := "run_sbuild", message := DscMessage);
        return Raised;
      }
      cwd := oldCwd;
      return Ok;
    }

    /** `_produce_cg_to_kafka(path)` */
    method ProduceCgToKafka(graphs: map<string, GraphFile>, path: string) returns (o: Outcome)
      modifies this
      ensures Run(Snapshot(), o) == ProduceCg(graphs, old(Snapshot()), path) && cwd == old(cwd)
    {
      var file := path + "fcg.json";
      if file !in graphs {
        errorMsg := errorMsg.(phase := "read_fcg", message := "File not found: " + file);
        return Raised;
      }
      match graphs[file]
      case Unparsable =>
        return Uncaught;
      case Parsed(graph) =>
        events := events + [GraphSent(graph)];
        return Ok;
    }

    /** A fatal checkpoint line. */
    method CheckFatal(log: Fields) returns (o: Outcome)
      modifies this
      ensures Run(Snapshot(), o) == FatalCheck(old(Snapshot()), log) && cwd == old(cwd)
    {
      if |log| < 2 {
        return Uncaught;
      }
      if log[1] == "failed" {
        errorMsg := errorMsg.(phase := FatalPhase(log[0]), message := FatalMessage(log[0]));
        return Raised;
      }
      return Ok;
    }

    /** An `analysis` line, or a `produce_callgraph` line that is not a success. */
    method CheckNonFatal(log: Fields) returns (o: Outcome)
      modifies this
      ensures Run(Snapshot(), o) == NonFatalCheck(old(Snapshot()), log) && cwd == old(cwd)
    {
      if |log| < 3 {
        return Uncaught;
      }
      if log[2] == "failed" {
        errorMsg := errorMsg.(phase := log[0]);
        if |log| < 4 {
          return Uncaught;
        }
        errorMsg := errorMsg.(errType := log[3], message := log[1]);
        ProduceErrorToKafka();
      }
      return Ok;
    }

    /** The body of the report loop. */
    method CheckLine(graphs: map<string, GraphFile>, line: string) returns (o: Outcome)
      modifies this
      ensures Run(Snapshot(), o) == LineOutcome(release, graphs, old(Snapshot()), line) && cwd == old(cwd)
    {
      if Comment(line) {
        return Ok;
      }
      o := CheckLog(graphs, ParseLine(line));
    }

    /** One record of the report loop. */
    method CheckLog(graphs: map<string, GraphFile>, log: Fields) returns (o: Outcome)
      requires |log| >= 1
      modifies this
      ensures Run(Snapshot(), o) == LogOutcome(release, graphs, old(Snapshot()), log) && cwd == old(cwd)
    {
      if log[0] == "build" || log[0] == "detect_binaries" || log[0] == "produce_debs" {
        o := CheckFatal(log);
      } else if log[0] == "analysis" {
        o := CheckNonFatal(log);
      } else if log[0] == "detect_packages" {
        if |log| < 2 {
          return Uncaught;
        }
        binaryPkgs := Split(log[1], " ");
        return Ok;
      } else if log[0] == "produce_callgraph" {
        if |log| >= 3 && log[2] == "success" {
          status := "done";
          o := ProduceCgToKafka(graphs, CallgraphDir(release) + "/" + log[1] + "/");
        } else {
          o := CheckNonFatal(log);
        }
      } else {
        return Ok;
      }
    }

    /** The loop reads line `i`, then goes on from line `i + 1`. */
    static lemma LinesFrom(k: Admission.ReleaseKey, graphs: map<string, GraphFile>, s: State,
                           lines: seq<string>, i: nat)
      requires i < |lines|
      ensures var step := LineOutcome(k, graphs, s, lines[i]);
              LinesOutcome(k, graphs, s, lines[i..])
              == if step.outcome != Ok then step else LinesOutcome(k, graphs, step.state, lines[i + 1..])
    {
      assert lines[i..][0] == lines[i];
      assert lines[i..][1..] == lines[i + 1..];
    }

    /** `_check_analysis_result()` */
    method CheckAnalysisResult(files: map<string, seq<string>>, graphs: map<string, GraphFile>)
      returns (o: Outcome)
      modifies this
      ensures Run(Snapshot(), o) == AnalysisOutcome(release, files, graphs, old(Snapshot())) && cwd == old(cwd)
    {
      var report := CallgraphDir(release) + "report";
      if report !in files {
        errorMsg := errorMsg.(phase := "report", message := "File not found: " + CallgraphDir(release) + "/report");
        return Raised;
      }
      var lines := files[report];
      ghost var s0 := Snapshot();
      var i := 0;
      while i < |lines|
        invariant 0 <= i <= |lines|
        invariant LinesOutcome(release, graphs, s0, lines) == LinesOutcome(release, graphs, Snapshot(), lines[i..])
        invariant cwd == old(cwd)
      {
        LinesFrom(release, graphs, Snapshot(), lines, i);
        o := CheckLine(graphs, lines[i]);
        if o != Ok {
          return;
        }
        i := i + 1;
      }
      return Ok;
    }

    /** `analyse()` */
    method Analyse(env: Environment) returns (finished: bool)
      modifies this
      ensures var r := AnalyseOutcome(env, release, old(cwd), old(Snapshot()));
              Snapshot() == r.state && cwd == r.cwd && finished == r.finished
    {
      ghost var s0 := Snapshot();
      var o := DownloadFiles(env);
      if o == Ok {
        o := RunSbuild(env);
        if o == Ok {
          o := CheckAnalysisResult(env.files, env.graphs);
        }
      }
      assert Run(Snapshot(), o) == Steps(env, release, old(cwd), s0).run;
      if o == Uncaught {
        return false;
      }
      if o == Raised {
        ProduceErrorToKafka();
      }
      return true;
    }
  }
}
