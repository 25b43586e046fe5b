/** `CScoutKafkaPlugin` of kafka_sbuild/entrypoint.py: for one release record
    it downloads the sources, runs sbuild, reads the build's report and emits
    `begin`, error, call-graph and `complete`/`failed` messages. The messages
    are an output sequence, the build tool and the file system an
    `Environment`. */
module SbuildPlugin {
  import opened Text
  import opened Report
  import opened Package
  import Fetch

  /** A call-graph message: the graph itself (no output directory), or a
      reference to the copy saved below the output directory. */
  datatype Payload =
    | Inline(graph: map<string, string>, times: map<string, string>, sourcePath: string)
    | Reference(dir: string, forge: string, product: string, version: string, arch: string,
                dist: string, sourcePath: string)

  /** The messages the plugin emits, in order. */
  datatype Event =
    | Begin
    | Complete
    | Failed
    | Error(error: ErrorMsg, times: map<string, string>)
    | Succeeded(pkg: string, payload: Payload)

  predicate Terminal(e: Event) {
    e.Complete? || e.Failed?
  }

  /** What the build steps read and change: the package state's fields and
      the messages emitted so far. */
  datatype Check = Check(times: map<string, string>, errorMsg: ErrorMsg, status: string,
                         binaryPkgs: seq<string>, events: seq<Event>)

  /** What a step sees but does not change. */
  datatype Context = Context(release: SourceRelease, directory: string, graphs: map<string, GraphFile>)

  datatype Run = Run(check: Check, outcome: Outcome)

  /** `c'` is `c` with messages added, none of them a lifecycle message, every
      error message carrying the profiling times of `c`. */
  predicate Grows(c: Check, c': Check) {
    c'.times == c.times && Adds(c.events, c'.events)
    && forall i :: |c.events| <= i < |c'.events| && c'.events[i].Error? ==> c'.events[i].times == c.times
  }

  /** `es'` is `es` with error and call-graph messages added. */
  predicate Adds(es: seq<Event>, es': seq<Event>) {
    |es| <= |es'| && es'[..|es|] == es
    && forall i :: |es| <= i < |es'| ==> es'[i].Error? || es'[i].Succeeded?
  }

  lemma AddsTrans(es: seq<Event>, es': seq<Event>, es'': seq<Event>)
    requires Adds(es, es') && Adds(es', es'')
    ensures Adds(es, es'')
  {
    assert es''[..|es|] == es''[..|es'|][..|es|];
  }

  lemma GrowsTrans(c: Check, c': Check, c'': Check)
    requires Grows(c, c') && Grows(c', c'')
    ensures Grows(c, c'')
  {
    AddsTrans(c.events, c'.events, c''.events);
  }

  /** The error dictionary filled in before a `PluginError` is raised. */
  function Crash(c: Check, phase: string, message: string): (r: Check)
    ensures r.errorMsg.phase == phase && r.errorMsg.message == message && r.errorMsg.crashed
    ensures r.errorMsg.errType == c.errorMsg.errType
    ensures r.events == c.events && Grows(c, r)
  {
    c.(errorMsg := c.errorMsg.(phase := phase, message := message, crashed := true))
  }

  /** `_produce_error_to_kafka`: the error dictionary with the profiling data. */
  function ProduceError(c: Check): (r: Check)
    ensures r.events == c.events + [Error(c.errorMsg, c.times)]
    ensures Grows(c, r)
  {
    c.(events := c.events + [Error(c.errorMsg, c.times)])
  }

  function EmitGraph(c: Check, pkg: string, payload: Payload): (r: Check)
    ensures r.events == c.events + [Succeeded(pkg, payload)]
    ensures Grows(c, r)
  {
    c.(events := c.events + [Succeeded(pkg, payload)])
  }

  /** `_produce_cg_to_kafka(path, pkg)`. A missing `fcg.json` is a crash; a
      file `json.load` rejects leaves `call_graph` unbound; with an output
      directory, an empty `pkg` (`pkg[0]`) or a graph without `product`,
      `version` or `architecture` raises as well. */
  function ProduceCg(ctx: Context, c: Check, path: string, pkg: string): (r: Run)
    ensures Grows(c, r.check)
    ensures path + "fcg.json" !in ctx.graphs <==> r.outcome == Raised
    ensures r.outcome == Raised ==> r.check == Crash(c, "read_fcg", "File not found: " + path + "fcg.json")
    ensures r.outcome == Ok ==> |r.check.events| == |c.events| + 1 && r.check.events[|c.events|].Succeeded?
                                && r.check.events[|c.events|].pkg == pkg
    ensures r.outcome == Ok ==> r.check.status == c.status
    ensures r.outcome != Ok ==> r.check.events == c.events
  {
    var file := path + "fcg.json";
    if file !in ctx.graphs then Run(Crash(c, "read_fcg", "File not found: " + file), Raised)
    else match ctx.graphs[file]
      case Unparsable => Run(c, Uncaught)
      case Parsed(graph) =>
        var sourcePath := PathJoin(ctx.directory, Dst(ctx.release));
        if ctx.directory == "" then
          Run(EmitGraph(c, pkg, Inline(graph, c.times, sourcePath)), Ok)
        else if pkg == "" || "product" !in graph || "version" !in graph || "architecture" !in graph then
          Run(c, Uncaught)
        else
          var cgDst := PathJoin(PathJoin(ctx.directory, CgDst(ctx.release, pkg)), "file.json");
          var payload := Reference(cgDst, ctx.release.forge, graph["product"], graph["version"],
                                   graph["architecture"], ctx.release.dist,
                                   PathJoin(ctx.directory, SourcesDst(ctx.release, pkg)));
          Run(EmitGraph(c, pkg, payload), Ok)
  }

  /** A fatal checkpoint: `log[1] == 'failed'` raises. */
  function Fatal(c: Check, log: Fields, phase: string, message: string): (r: Run)
    requires |log| >= 2
    ensures Grows(c, r.check) && r.check.events == c.events && r.outcome != Uncaught
    ensures r.outcome == Raised <==> log[1] == "failed"
    ensures r.outcome == Raised ==> r.check == Crash(c, phase, message)
  {
    if log[1] == "failed" then Run(Crash(c, phase, message), Raised) else Run(c, Ok)
  }

  /** A non-fatal checkpoint: `log[2] == 'failed'` emits an error of type
      `log[3]` whose message is `log[1]`, then the loop goes on. */
  function NonFatal(c: Check, log: Fields, phase: string): (r: Run)
    requires |log| >= 3
    ensures Grows(c, r.check) && r.outcome != Raised
  {
    if log[2] != "failed" then Run(c, Ok)
    else
      var c1 := c.(errorMsg := c.errorMsg.(phase := phase));
      if |log| < 4 then Run(c1, Uncaught)
      else Run(ProduceError(c1.(errorMsg := c1.errorMsg.(errType := Some(log[3]), message := log[1]))), Ok)
  }

  /** One iteration of the second loop of `_check_analysis_result`. */
  function LineOutcome(ctx: Context, c: Check, log: Fields): (r: Run)
    ensures Grows(c, r.check)
    ensures r.outcome == Raised ==> r.check.errorMsg.crashed
  {
    var key := log[0];
    if key == "build" then
      if |log| < 2 then Run(c, Uncaught) else Fatal(c, log, "build", "Build failed")
    else if key == "detect_binaries" then
      if |log| < 2 then Run(c, Uncaught) else Fatal(c, log, "detect_binaries", "No binaries found")
    else if key == "analysis" then
      if |log| < 3 then Run(c, Uncaught) else NonFatal(c, log, "analysis")
    else if key == "produce_debs" then
      if |log| < 2 then Run(c, Uncaught)
      else Fatal(c, log, "detect_binaries", "Produce debian packages failed")
    else if key == "detect_packages" then
      if |log| < 2 then Run(c, Uncaught) else Run(c.(binaryPkgs := Split(log[1], " ")), Ok)
    else if key == "produce_callgraph" then
      if |log| < 3 then Run(c, Uncaught)
      else if log[2] == "failed" then NonFatal(c, log, "produce_callgraph")
      else if log[2] == "success" then
        ProduceCg(ctx, c.(status := "done"), CallgraphDir(ctx.release) + "/" + log[1] + "/", log[1])
      else Run(c, Ok)
    else Run(c, Ok)
  }

  /** The second loop of `_check_analysis_result`: the lines in file order
      until the first one that raises. */
  function LinesOutcome(ctx: Context, c: Check, lines: seq<Fields>): (r: Run)
    ensures Grows(c, r.check)
    ensures r.outcome == Raised ==> r.check.errorMsg.crashed
    decreases |lines|
  {
    if lines == [] then Run(c, Ok)
    else
      var step := LineOutcome(ctx, c, lines[0]);
      if step.outcome != Ok then step
      else
        var rest := LinesOutcome(ctx, step.check, lines[1..]);
        GrowsTrans(c, step.check, rest.check);
        rest
  }

  /** A `time_elapsed` record the first loop stores. */
  predicate TimeRecord(log: Fields) {
    log[0] == "time_elapsed" && |log| >= 3
  }

  /** The first loop of `_check_analysis_result`. */
  function CollectTimes(lines: seq<Fields>, times: map<string, string>): map<string, string>
    decreases |lines|
  {
    if lines == [] then times
    else
      var log := lines[0];
      CollectTimes(lines[1..], if TimeRecord(log) then times[log[1] := log[2]] else times)
  }

  /** `_check_analysis_result`, `files` holding the text files the build left. */
  function AnalysisOutcome(ctx: Context, files: map<string, seq<string>>, c: Check): (r: Run)
    ensures var report := CallgraphDir(ctx.release) + "report";
            report !in files ==> r == Run(Crash(c, "report", "File not found: " + report), Raised)
    ensures var report := CallgraphDir(ctx.release) + "report";
            report in files ==> Grows(c.(times := CollectTimes(ReportLines(files[report]), c.times)), r.check)
    ensures Adds(c.events, r.check.events)
    ensures r.outcome == Raised ==> r.check.errorMsg.crashed
  {
    var report := CallgraphDir(ctx.release) + "report";
    if report !in files then Run(Crash(c, "report", "File not found: " + report), Raised)
    else
      var lines := ReportLines(files[report]);
      LinesOutcome(ctx, c.(times := CollectTimes(lines, c.times)), lines)
  }

  /** What the build tool and the file system answer for one release. */
  datatype Environment = Environment(
    snapshot: Fetch.SnapshotArchive,
    pool: Fetch.PoolArchive,
    /** how many files `glob('*.dsc')` finds in `dir_name` */
    dscFiles: nat,
    returnCode: int,
    /** sbuild's standard output decoded as UTF-8; None when it is not valid
        UTF-8, so that `decode` raises UnicodeDecodeError */
    output: Option<string>,
    files: map<string, seq<string>>,
    graphs: map<string, GraphFile>)

  /** `download()`: a failed download becomes a crash in its own phase. */
  function DownloadOutcome(env: Environment, r: SourceRelease, c: Check): (res: Run)
    ensures res.check.events == c.events && Grows(c, res.check)
    ensures res.outcome == Ok ==> res.check == c
    ensures res.outcome == Raised ==> res.check.errorMsg.crashed
  {
    var d := Fetch.DownloadRelease(env.snapshot, env.pool, r.source, r.version);
    if d.Downloaded? then Run(c, Ok)
    else if d.DownloadError? then Run(Crash(c, d.phase, d.message), Raised)
    else Run(c, Uncaught)
  }

  const DscMessage: string := "Cannot find .dsc file or found multiple"

  datatype Sbuild = Sbuild(run: Run, cwd: string)

  /** `_run_sbuild`, started in `cwd`: it changes into `dir_name` and comes
      back to `old_cwd` only when it does not raise. A return code other
      than 1 counts as success. On return code 1 the output is decoded
      before the phase is set, so an output that is not UTF-8 raises a
      UnicodeDecodeError that no handler of `consume` catches. */
  function SbuildOutcome(env: Environment, r: SourceRelease, oldCwd: string, cwd: string, c: Check): (res: Sbuild)
    ensures res.run.check.events == c.events && Grows(c, res.run.check)
    ensures res.run.outcome == Ok <==> env.dscFiles == 1 && env.returnCode != 1
    ensures res.run.outcome == Uncaught <==> env.dscFiles == 1 && env.returnCode == 1 && env.output.None?
    ensures res.run.outcome == Ok ==> res.cwd == oldCwd && res.run.check == c
    ensures res.run.outcome == Uncaught ==> res.cwd == PathJoin(cwd, DirName(r)) && res.run.check == c
    ensures res.run.outcome == Raised ==> res.cwd == PathJoin(cwd, DirName(r)) && res.run.check.errorMsg.phase == "run_sbuild"
                                          && res.run.check.errorMsg.crashed
    ensures res.run.outcome == Raised && env.dscFiles != 1 ==> res.run.check.errorMsg.message == DscMessage
    ensures res.run.outcome == Raised && env.dscFiles == 1 ==>
              res.run.check.errorMsg.message == "Sbuild failed:\n" + env.output.value
  {
    var inside := PathJoin(cwd, DirName(r));
    if env.dscFiles != 1 then Sbuild(Run(Crash(c, "run_sbuild", DscMessage), Raised), inside)
    else if env.returnCode == 1 then
      match env.output
      case None => Sbuild(Run(c, Uncaught), inside)
      case Some(text) => Sbuild(Run(Crash(c, "run_sbuild", "Sbuild failed:\n" + text), Raised), inside)
    else Sbuild(Run(c, Ok), oldCwd)
  }

  /** The plugin's observable state after one `consume(record)`; `finished`
      is false when an exception escaped `consume`. */
  datatype Consumed = Consumed(events: seq<Event>, cwd: string, removed: seq<string>, finished: bool)

  /** The state after `download`, `_run_sbuild` and `_check_analysis_result`,
      stopping at the first that raises, and the working directory then. */
  function Steps(env: Environment, directory: string, r: SourceRelease, cwd: string, c: Check): (res: Sbuild)
    ensures Adds(c.events, res.run.check.events)
    ensures res.run.outcome == Raised ==> res.run.check.errorMsg.crashed
  {
    var d := DownloadOutcome(env, r, c);
    if d.outcome != Ok then Sbuild(d, cwd)
    else
      var s := SbuildOutcome(env, r, cwd, cwd, d.check);
      if s.run.outcome != Ok then s
      else
        var a := AnalysisOutcome(Context(r, directory, env.graphs), env.files, s.run.check);
        Sbuild(a, s.cwd)
  }

  /** `consume(record)`, starting from the messages `events`, the working
      directory `cwd` and the removed trees `removed`. */
  function ConsumeOutcome(directory: string, cwd: string, record: map<string, string>, env: Environment,
                          events: seq<Event>, removed: seq<string>): (res: Consumed)
  {
    match ParseRecord(record)
    case None => Consumed(events, cwd, removed, false)
    case Some(r) => Finish(r, cwd, removed, Steps(env, directory, r, cwd, Check(map[], NoError, "", [], events + [Begin])))
  }

  /** The end of `consume` after the steps `s`: `complete`, or the error
      message and `failed`, then the cleanup; nothing when an exception escapes. */
  function Finish(r: SourceRelease, cwd: string, removed: seq<string>, s: Sbuild): Consumed {
    if s.run.outcome == Uncaught then Consumed(s.run.check.events, s.cwd, removed, false)
    else
      var last := if s.run.outcome == Ok then s.run.check.events + [Complete]
                  else ProduceError(s.run.check).events + [Failed];
      Consumed(last, cwd, removed + [PathJoin(cwd, DirName(r)), CallgraphDir(r)], true)
  }

  /** The last `time_elapsed` record for a key decides its stored time. */
  lemma {:induction false} TimesLastWins(lines: seq<Fields>, times: map<string, string>, j: nat)
    requires j < |lines| && TimeRecord(lines[j])
    requires forall i :: j < i < |lines| && TimeRecord(lines[i]) ==> lines[i][1] != lines[j][1]
    ensures lines[j][1] in CollectTimes(lines, times)
    ensures CollectTimes(lines, times)[lines[j][1]] == lines[j][2]
    decreases |lines|
  {
    var log := lines[0];
    var times' := if TimeRecord(log) then times[log[1] := log[2]] else times;
    if j == 0 {
      TimesUntouched(lines[1..], times', log[1]);
    } else {
      assert forall i :: j - 1 < i < |lines[1..]| && TimeRecord(lines[1..][i]) ==> lines[1..][i][1] != lines[j][1] by {
        forall i | j - 1 < i < |lines[1..]| && TimeRecord(lines[1..][i])
          ensures lines[1..][i][1] != lines[j][1]
        {
          assert lines[1..][i] == lines[i + 1];
        }
      }
      assert lines[1..][j - 1] == lines[j];
      TimesLastWins(lines[1..], times', j - 1);
    }
  }

  /** A key no `time_elapsed` record names keeps what it had. */
  lemma {:induction false} TimesUntouched(lines: seq<Fields>, times: map<string, string>, k: string)
    requires forall i :: 0 <= i < |lines| && TimeRecord(lines[i]) ==> lines[i][1] != k
    ensures k in CollectTimes(lines, times) <==> k in times
    ensures k in times ==> CollectTimes(lines, times)[k] == times[k]
    decreases |lines|
  {
    if lines != [] {
      var log := lines[0];
      var times' := if TimeRecord(log) then times[log[1] := log[2]] else times;
      assert forall i :: 0 <= i < |lines[1..]| && TimeRecord(lines[1..][i]) ==> lines[1..][i][1] != k by {
        forall i | 0 <= i < |lines[1..]| && TimeRecord(lines[1..][i]) ensures lines[1..][i][1] != k {
          assert lines[1..][i] == lines[i + 1];
        }
      }
      TimesUntouched(lines[1..], times', k);
    }
  }

  /** The lines are classified one after the other: the outcome on `a + b` is
      that on `a` if `a` raises, and otherwise `b` continues from where `a` left. */
  lemma {:induction false} LinesAppend(ctx: Context, c: Check, a: seq<Fields>, b: seq<Fields>)
    ensures LinesOutcome(ctx, c, a + b) ==
            var r := LinesOutcome(ctx, c, a);
            if r.outcome != Ok then r else LinesOutcome(ctx, r.check, b)
    decreases |a|
  {
    if a == [] {
      assert a + b == b;
    } else {
      assert (a + b)[0] == a[0];
      assert (a + b)[1..] == a[1..] + b;
      var step := LineOutcome(ctx, c, a[0]);
      if step.outcome == Ok {
        LinesAppend(ctx, step.check, a[1..], b);
      }
    }
  }

  /** A `build`, `detect_binaries` or `produce_debs` checkpoint that failed. */
  predicate FatalLine(log: Fields) {
    (log[0] == "build" || log[0] == "detect_binaries" || log[0] == "produce_debs")
    && |log| >= 2 && log[1] == "failed"
  }

  /** The phase a fatal checkpoint is reported under: a `produce_debs`
      failure counts as a `detect_binaries` one. */
  function FatalPhase(key: string): string {
    if key == "produce_debs" then "detect_binaries" else key
  }

  function FatalMessage(key: string): string {
    if key == "build" then "Build failed"
    else if key == "detect_binaries" then "No binaries found"
    else "Produce debian packages failed"
  }

  /** The first fatal checkpoint ends the classification with a crash in its
      phase; what follows it is never looked at. */
  lemma FirstFatalAborts(ctx: Context, c: Check, before: seq<Fields>, log: Fields, after: seq<Fields>)
    requires FatalLine(log)
    requires LinesOutcome(ctx, c, before).outcome == Ok
    ensures var prior := LinesOutcome(ctx, c, before).check;
            LinesOutcome(ctx, c, before + [log] + after)
            == Run(Crash(prior, FatalPhase(log[0]), FatalMessage(log[0])), Raised)
  {
    assert before + [log] + after == before + ([log] + after);
    LinesAppend(ctx, c, before, [log] + after);
    var prior := LinesOutcome(ctx, c, before).check;
    assert ([log] + after)[0] == log;
  }

  /** A recognised checkpoint whose line lacks a field the code reads raises
      an `IndexError` that nothing catches. */
  lemma ShortLineUncaught(ctx: Context, c: Check, log: Fields)
    requires (|log| < 2 && log[0] in ["build", "detect_binaries", "produce_debs", "detect_packages"])
             || (|log| < 3 && log[0] in ["analysis", "produce_callgraph"])
             || (|log| == 3 && log[0] in ["analysis", "produce_callgraph"] && log[2] == "failed")
    ensures LineOutcome(ctx, c, log).outcome == Uncaught
  {
  }

  /** A `produce_callgraph` success whose `fcg.json` is missing is fatal. */
  lemma MissingGraphIsFatal(ctx: Context, c: Check, log: Fields)
    requires log[0] == "produce_callgraph" && |log| >= 3 && log[2] == "success"
    requires CallgraphDir(ctx.release) + "/" + log[1] + "/fcg.json" !in ctx.graphs
    ensures var r := LineOutcome(ctx, c, log);
            r.outcome == Raised && r.check.errorMsg.phase == "read_fcg" && r.check.errorMsg.crashed
            && r.check.events == c.events
  {
    assert CallgraphDir(ctx.release) + "/" + log[1] + "/" + "fcg.json"
        == CallgraphDir(ctx.release) + "/" + log[1] + "/fcg.json";
  }

  /** A `produce_callgraph` line reporting success. */
  predicate SuccessLine(log: Fields) {
    log[0] == "produce_callgraph" && |log| >= 3 && log[2] == "success"
  }

  /** An `analysis` or `produce_callgraph` line reporting a failure, with its type. */
  predicate FailureLine(log: Fields) {
    (log[0] == "analysis" || log[0] == "produce_callgraph") && |log| >= 4 && log[2] == "failed"
  }

  /** The package of a success line. */
  function SuccessPkg(log: Fields): seq<string> {
    if SuccessLine(log) then [log[1]] else []
  }

  /** Phase, message and type of a failure line. */
  function FailureNote(log: Fields): seq<(string, string, string)> {
    if FailureLine(log) then [(log[0], log[1], log[3])] else []
  }

  /** The packages of the success lines, in file order. */
  function SuccessPkgs(lines: seq<Fields>): seq<string> {
    if lines == [] then [] else SuccessPkg(lines[0]) + SuccessPkgs(lines[1..])
  }

  /** Phase, message and type of the failure lines, in file order. */
  function FailureNotes(lines: seq<Fields>): seq<(string, string, string)> {
    if lines == [] then [] else FailureNote(lines[0]) + FailureNotes(lines[1..])
  }

  /** The package of a call-graph message. */
  function GraphPkg(e: Event): seq<string> {
    if e.Succeeded? then [e.pkg] else []
  }

  /** Phase, message and type of an error message that carries a type. */
  function ErrorNote(e: Event): seq<(string, string, string)> {
    if e.Error? && e.error.errType.Some? then [(e.error.phase, e.error.message, e.error.errType.value)] else []
  }

  /** The packages of the call-graph messages, in order. */
  function GraphPkgs(events: seq<Event>): seq<string> {
    if events == [] then [] else GraphPkg(events[0]) + GraphPkgs(events[1..])
  }

  /** Phase, message and type of the error messages that carry a type, in order. */
  function ErrorNotes(events: seq<Event>): seq<(string, string, string)> {
    if events == [] then [] else ErrorNote(events[0]) + ErrorNotes(events[1..])
  }

  lemma EventsAppend(a: seq<Event>, b: seq<Event>)
    ensures GraphPkgs(a + b) == GraphPkgs(a) + GraphPkgs(b)
    ensures ErrorNotes(a + b) == ErrorNotes(a) + ErrorNotes(b)
  {
    GraphPkgsAppend(a, b);
    ErrorNotesAppend(a, b);
  }

  lemma {:induction false} GraphPkgsAppend(a: seq<Event>, b: seq<Event>)
    ensures GraphPkgs(a + b) == GraphPkgs(a) + GraphPkgs(b)
    decreases |a|
  {
    if a == [] {
      assert a + b == b;
    } else {
      assert (a + b)[0] == a[0];
      assert (a + b)[1..] == a[1..] + b;
      GraphPkgsAppend(a[1..], b);
      var h, x, y := GraphPkg(a[0]), GraphPkgs(a[1..]), GraphPkgs(b);
      assert h + (x + y) == (h + x) + y;
    }
  }

  lemma {:induction false} ErrorNotesAppend(a: seq<Event>, b: seq<Event>)
    ensures ErrorNotes(a + b) == ErrorNotes(a) + ErrorNotes(b)
    decreases |a|
  {
    if a == [] {
      assert a + b == b;
    } else {
      assert (a + b)[0] == a[0];
      assert (a + b)[1..] == a[1..] + b;
      ErrorNotesAppend(a[1..], b);
      var h, x, y := ErrorNote(a[0]), ErrorNotes(a[1..]), ErrorNotes(b);
      assert h + (x + y) == (h + x) + y;
    }
  }

  lemma OneLineEvents(ctx: Context, c: Check, log: Fields)
    requires LineOutcome(ctx, c, log).outcome == Ok
    ensures var r := LineOutcome(ctx, c, log).check;
            GraphPkgs(r.events) == GraphPkgs(c.events) + SuccessPkgs([log])
            && ErrorNotes(r.events) == ErrorNotes(c.events) + FailureNotes([log])
  {
    var r := LineOutcome(ctx, c, log).check;
    SingleNotes(log);
    if SuccessLine(log) {
      SuccessEvent(ctx, c, log);
      AppendOne(c.events, r.events[|c.events|]);
    } else if FailureLine(log) {
      FailureEvent(ctx, c, log);
      AppendOne(c.events, r.events[|c.events|]);
    } else {
      QuietLine(ctx, c, log);
    }
  }

  /** The projections of one more message. */
  lemma AppendOne(es: seq<Event>, e: Event)
    ensures GraphPkgs(es + [e]) == GraphPkgs(es) + GraphPkg(e)
    ensures ErrorNotes(es + [e]) == ErrorNotes(es) + ErrorNote(e)
  {
    EventsAppend(es, [e]);
    assert [e][1..] == [];
    assert GraphPkgs([e]) == GraphPkg(e) + [];
    assert ErrorNotes([e]) == ErrorNote(e) + [];
  }

  /** A success line that does not raise sets the status to `done` and emits
      one call-graph message for its package. */
  lemma SuccessEvent(ctx: Context, c: Check, log: Fields)
    requires SuccessLine(log) && LineOutcome(ctx, c, log).outcome == Ok
    ensures LineOutcome(ctx, c, log).check.status == "done"
    ensures var es := LineOutcome(ctx, c, log).check.events;
            |es| == |c.events| + 1 && es == c.events + [es[|c.events|]]
            && es[|c.events|].Succeeded? && es[|c.events|].pkg == log[1]
  {
    var r := LineOutcome(ctx, c, log);
    assert r == ProduceCg(ctx, c.(status := "done"), CallgraphDir(ctx.release) + "/" + log[1] + "/", log[1]);
    var es := r.check.events;
    assert es[..|c.events|] == c.events;
    assert es == es[..|c.events|] + [es[|c.events|]];
  }

  /** A failure line that does not raise emits one error message with the
      line's phase, message and type. */
  lemma FailureEvent(ctx: Context, c: Check, log: Fields)
    requires FailureLine(log) && LineOutcome(ctx, c, log).outcome == Ok
    ensures var es := LineOutcome(ctx, c, log).check.events;
            |es| == |c.events| + 1 && es == c.events + [es[|c.events|]]
            && ErrorNote(es[|c.events|]) == [(log[0], log[1], log[3])]
  {
    var r := LineOutcome(ctx, c, log);
    assert r == NonFatal(c, log, log[0]);
  }

  /** Any other line that does not raise emits nothing. */
  lemma QuietLine(ctx: Context, c: Check, log: Fields)
    requires !SuccessLine(log) && !FailureLine(log) && LineOutcome(ctx, c, log).outcome == Ok
    ensures LineOutcome(ctx, c, log).check.events == c.events
  {
  }

  lemma SplitNotes(lines: seq<Fields>)
    requires lines != []
    ensures SuccessPkgs(lines) == SuccessPkgs([lines[0]]) + SuccessPkgs(lines[1..])
    ensures FailureNotes(lines) == FailureNotes([lines[0]]) + FailureNotes(lines[1..])
  {
    SingleNotes(lines[0]);
  }

  /** The notes of a single line. */
  lemma SingleNotes(log: Fields)
    ensures SuccessPkgs([log]) == SuccessPkg(log)
    ensures FailureNotes([log]) == FailureNote(log)
  {
    var one := [log];
    assert one[1..] == [];
    assert SuccessPkgs(one) == SuccessPkg(log) + [];
    assert FailureNotes(one) == FailureNote(log) + [];
  }

  /** When no line raises, the call-graph messages are one per success line
      and the typed error messages one per failure line, both in file order. */
  lemma {:induction false} CompletedEvents(ctx: Context, c: Check, lines: seq<Fields>)
    requires LinesOutcome(ctx, c, lines).outcome == Ok
    ensures var r := LinesOutcome(ctx, c, lines).check;
            GraphPkgs(r.events) == GraphPkgs(c.events) + SuccessPkgs(lines)
            && ErrorNotes(r.events) == ErrorNotes(c.events) + FailureNotes(lines)
    decreases |lines|
  {
    if lines != [] {
      var step := LineOutcome(ctx, c, lines[0]);
      var r := LinesOutcome(ctx, c, lines).check;
      assert r == LinesOutcome(ctx, step.check, lines[1..]).check;
      OneLineEvents(ctx, c, lines[0]);
      CompletedEvents(ctx, step.check, lines[1..]);
      SplitNotes(lines);
      var g0, g1, g2 := GraphPkgs(c.events), SuccessPkgs([lines[0]]), SuccessPkgs(lines[1..]);
      assert g0 + g1 + g2 == g0 + (g1 + g2);
      var e0, e1, e2 := ErrorNotes(c.events), FailureNotes([lines[0]]), FailureNotes(lines[1..]);
      assert e0 + e1 + e2 == e0 + (e1 + e2);
    }
  }

  /** The lifecycle of `consume`: `begin` first; unless an exception escapes,
      exactly one of `complete` and `failed`, last, a `failed` preceded by the
      crash's error message; then the working directory is restored and both
      trees are removed. An escaping exception leaves no terminal message and
      no cleanup; a record `PackageState` cannot read emits nothing. */
  lemma Lifecycle(directory: string, cwd: string, record: map<string, string>, env: Environment,
                  events: seq<Event>, removed: seq<string>)
    ensures var res := ConsumeOutcome(directory, cwd, record, env, events, removed);
            (ParseRecord(record).None? ==> res == Consumed(events, cwd, removed, false))
            && (ParseRecord(record).Some? ==>
                  StepsEnd(directory, cwd, record, env, events, res)
                  && (res.finished ==>
                     ClosedRun(events, res.events) && res.cwd == cwd
                     && res.removed == removed + [PathJoin(cwd, DirName(ParseRecord(record).value)),
                                                  CallgraphDir(ParseRecord(record).value)])
                  && (!res.finished ==> OpenRun(events, res.events) && res.removed == removed))
  {
    if ParseRecord(record).Some? {
      var r := ParseRecord(record).value;
      StepsAfterBegin(env, directory, r, cwd, events);
      FinishLifecycle(events, r, cwd, removed, Steps(env, directory, r, cwd, Check(map[], NoError, "", [], events + [Begin])));
    }
  }

  /** How the steps of `consume` on the readable record `record` ended decides
      its end: it finishes exactly when no exception escaped them, with
      `complete` when none was raised and with the crash's error message and
      `failed` when a PluginError was caught. */
  ghost predicate StepsEnd(directory: string, cwd: string, record: map<string, string>, env: Environment,
                           events: seq<Event>, res: Consumed)
    requires ParseRecord(record).Some?
  {
    var r := ParseRecord(record).value;
    var s := Steps(env, directory, r, cwd, Check(map[], NoError, "", [], events + [Begin])).run;
    (res.finished <==> s.outcome != Uncaught)
    && (s.outcome == Ok ==> res.events == s.check.events + [Complete])
    && (s.outcome == Raised ==> res.events == s.check.events + [Error(s.check.errorMsg, s.check.times), Failed])
  }

  /** An sbuild that fails with output that is not UTF-8 escapes `consume`:
      after `begin` no terminal message is sent and nothing is cleaned up. */
  lemma UndecodableOutputEscapes(directory: string, cwd: string, record: map<string, string>, env: Environment,
                                 events: seq<Event>, removed: seq<string>)
    requires ParseRecord(record).Some?
    requires Fetch.DownloadRelease(env.snapshot, env.pool, ParseRecord(record).value.source,
                                   ParseRecord(record).value.version).Downloaded?
    requires env.dscFiles == 1 && env.returnCode == 1 && env.output.None?
    ensures var res := ConsumeOutcome(directory, cwd, record, env, events, removed);
            !res.finished && OpenRun(events, res.events) && res.removed == removed
  {
    Lifecycle(directory, cwd, record, env, events, removed);
  }

  /** The end of `consume` closes a run with one terminal message, or leaves it
      open: a normal end sends `complete`, a caught PluginError its error
      message and `failed`, and only an escaping exception leaves it open. */
  lemma FinishLifecycle(events: seq<Event>, r: SourceRelease, cwd: string, removed: seq<string>, s: Sbuild)
    requires BegunAfter(events, s.run.check.events)
    requires s.run.outcome == Raised ==> s.run.check.errorMsg.crashed
    ensures var res := Finish(r, cwd, removed, s);
            (res.finished <==> s.run.outcome != Uncaught)
            && (s.run.outcome == Ok ==> res.events == s.run.check.events + [Complete])
            && (s.run.outcome == Raised ==>
                  res.events == s.run.check.events + [Error(s.run.check.errorMsg, s.run.check.times), Failed])
            && (res.finished ==>
               ClosedRun(events, res.events) && res.cwd == cwd
               && res.removed == removed + [PathJoin(cwd, DirName(r)), CallgraphDir(r)])
            && (!res.finished ==> OpenRun(events, res.events) && res.removed == removed)
  {
    var es := s.run.check.events;
    if s.run.outcome == Ok {
      Closed(events, es, [Complete]);
    } else if s.run.outcome == Raised {
      var e := Error(s.run.check.errorMsg, s.run.check.times);
      assert ProduceError(s.run.check).events + [Failed] == es + [e, Failed];
      Closed(events, es, [e, Failed]);
    } else {
      Open(events, es);
    }
  }

  /** After `events`, `begin` and then only error and success messages. */
  ghost predicate BegunAfter(events: seq<Event>, es: seq<Event>) {
    |es| > |events| && es[..|events|] == events && es[|events|] == Begin
    && forall i :: |events| < i < |es| ==> !Terminal(es[i])
  }

  /** After `events`, `begin`, then one terminal message, last; a `failed`
      comes right after a crash's error message. */
  ghost predicate ClosedRun(events: seq<Event>, all: seq<Event>) {
    |all| > |events| && all[..|events|] == events && all[|events|] == Begin
    && Terminal(all[|all| - 1])
    && (forall i :: |events| <= i < |all| - 1 ==> !Terminal(all[i]))
    && (all[|all| - 1] == Failed ==> all[|all| - 2].Error? && all[|all| - 2].error.crashed)
  }

  /** After `events`, `begin` and no terminal message. */
  ghost predicate OpenRun(events: seq<Event>, all: seq<Event>) {
    |all| > |events| && all[..|events|] == events && all[|events|] == Begin
    && forall i :: |events| <= i < |all| ==> !Terminal(all[i])
  }

  /** A run closed by `complete`, or by a crash's error message and `failed`. */
  lemma Closed(events: seq<Event>, es: seq<Event>, tail: seq<Event>)
    requires BegunAfter(events, es)
    requires tail == [Complete] || (|tail| == 2 && tail[0].Error? && tail[0].error.crashed && tail[1] == Failed)
    ensures ClosedRun(events, es + tail)
  {
    var all := es + tail;
    assert all[..|es|] == es;
    assert all[..|events|] == es[..|es|][..|events|];
    forall i | |events| <= i < |all| - 1 ensures !Terminal(all[i]) {
      if i < |es| {
        assert all[i] == es[i];
      } else {
        assert all[i] == tail[0];
      }
    }
  }

  /** A run left by an escaping exception: nothing terminal after `events`. */
  lemma Open(events: seq<Event>, es: seq<Event>)
    requires BegunAfter(events, es)
    ensures OpenRun(events, es)
  {
  }

  /** The steps run after `begin` and add only error and success messages. */
  lemma StepsAfterBegin(env: Environment, directory: string, r: SourceRelease, cwd: string, events: seq<Event>)
    ensures BegunAfter(events, Steps(env, directory, r, cwd, Check(map[], NoError, "", [], events + [Begin])).run.check.events)
  {
    var c0 := Check(map[], NoError, "", [], events + [Begin]);
    var es := Steps(env, directory, r, cwd, c0).run.check.events;
    assert Adds(c0.events, es);
    assert es[..|events|] == events by {
      assert es[..|events|] == es[..|events| + 1][..|events|];
    }
    assert es[|events|] == Begin by {
      assert es[..|events| + 1][|events|] == Begin;
    }
  }

  /** The plugin, holding the messages it has emitted, its working directory
      and the trees `_cleanup` has removed. */
  class CScoutKafkaPlugin {
    const directory: string
    var cwd: string
    var events: seq<Event>
    var removed: seq<string>
    var state: PackageState?

    constructor (directory: string, cwd: string)
      ensures this.directory == directory && this.cwd == cwd
      ensures events == [] && removed == [] && state == null
    {
      this.directory := directory;
      this.cwd := cwd;
      events := [];
      removed := [];
      state := null;
    }

    /** The fields of `st` and the messages, as a step sees them. */
    function Snapshot(st: PackageState): Check
      reads this, st
    {
      Check(st.times, st.errorMsg, st.status, st.binaryPkgs, events)
    }

    method ProduceErrorToKafka(st: PackageState)
      modifies this
      ensures events == old(events) + [Error(st.errorMsg, st.times)]
      ensures cwd == old(cwd) && removed == old(removed) && state == old(state)
    {
      events := events + [Error(st.errorMsg, st.times)];
    }

    /** `_produce_cg_to_kafka(path, pkg)` */
    method ProduceCgToKafka(st: PackageState, graphs: map<string, GraphFile>, path: string, pkg: string)
      returns (o: Outcome)
      modifies this, st
      ensures Run(Snapshot(st), o) == ProduceCg(Context(st.release, directory, graphs), old(Snapshot(st)), path, pkg)
      ensures cwd == old(cwd) && removed == old(removed) && state == old(state)
    {
      var file := path + "fcg.json";
      if file !in graphs {
        st.errorMsg := st.errorMsg.(phase := "read_fcg", message := "File not found: " + file, crashed := true);
        return Raised;
      }
      match graphs[file]
      case Unparsable =>
        return Uncaught;
      case Parsed(graph) =>
        var sourcePath := PathJoin(directory, Dst(st.release));
        if directory == "" {
          events := events + [Succeeded(pkg, Inline(graph, st.times, sourcePath))];
          return Ok;
        }
        if pkg == "" || "product" !in graph || "version" !in graph || "architecture" !in graph {
          return Uncaught;
        }
        var cgDst := PathJoin(PathJoin(directory, CgDst(st.release, pkg)), "file.json");
        var payload := Reference(cgDst, st.release.forge, graph["product"], graph["version"],
                                 graph["architecture"], st.release.dist,
                                 PathJoin(directory, SourcesDst(st.release, pkg)));
        events := events + [Succeeded(pkg, payload)];
        return Ok;
    }

    /** The body of the second loop of `_check_analysis_result`. */
    method CheckLine(st: PackageState, graphs: map<string, GraphFile>, log: Fields) returns (o: Outcome)
      modifies this, st
      ensures Run(Snapshot(st), o) == LineOutcome(Context(st.release, directory, graphs), old(Snapshot(st)), log)
      ensures cwd == old(cwd) && removed == old(removed) && state == old(state)
    {
      var key := log[0];
      if key == "build" || key == "detect_binaries" || key == "produce_debs" {
        if |log| < 2 {
          return Uncaught;
        }
        if log[1] == "failed" {
          var phase := if key == "produce_debs" then "detect_binaries" else key;
          var message := if key == "build" then "Build failed"
                         else if key == "detect_binaries" then "No binaries found"
                         else "Produce debian packages failed";
          st.errorMsg := st.errorMsg.(phase := phase, message := message, crashed := true);
          return Raised;
        }
        return Ok;
      } else if key == "detect_packages" {
        if |log| < 2 {
          return Uncaught;
        }
        st.binaryPkgs := Split(log[1], " ");
        return Ok;
      } else if key == "analysis" || key == "produce_callgraph" {
        if |log| < 3 {
          return Uncaught;
        }
        if log[2] == "failed" {
          st.errorMsg := st.errorMsg.(phase := key);
          if |log| < 4 {
            return Uncaught;
          }
          st.errorMsg := st.errorMsg.(errType := Some(log[3]), message := log[1]);
          ProduceErrorToKafka(st);
          return Ok;
        }
        if key == "produce_callgraph" && log[2] == "success" {
          st.status := "done";
          var pkg := log[1];
          o := ProduceCgToKafka(st, graphs, CallgraphDir(st.release) + "/" + pkg + "/", pkg);
          return;
        }
        return Ok;
      }
      return Ok;
    }

    /** `_check_analysis_result`: the profiling times first, then the checkpoints. */
    method CheckAnalysisResult(st: PackageState, files: map<string, seq<string>>, graphs: map<string, GraphFile>)
      returns (o: Outcome)
      modifies this, st
      ensures Run(Snapshot(st), o) == AnalysisOutcome(Context(st.release, directory, graphs), files, old(Snapshot(st)))
      ensures cwd == old(cwd) && removed == old(removed) && state == old(state)
    {
      var report := CallgraphDir(st.release) + "report";
      if report !in files {
        st.errorMsg := st.errorMsg.(phase := "report", message := "File not found: " + report, crashed := true);
        return Raised;
      }
      var lines := ReportLines(files[report]);
      CollectTimesLoop(st, lines);
      o := CheckLines(st, graphs, lines);
    }

    /** The first loop of `_check_analysis_result`: the `time_elapsed` records. */
    method CollectTimesLoop(st: PackageState, lines: seq<Fields>)
      modifies st
      ensures Snapshot(st) == old(Snapshot(st)).(times := CollectTimes(lines, old(st.times)))
    {
      ghost var c0 := Snapshot(st);
      var i := 0;
      while i < |lines|
        invariant 0 <= i <= |lines|
        invariant CollectTimes(lines, c0.times) == CollectTimes(lines[i..], st.times)
        invariant Snapshot(st) == c0.(times := st.times)
      {
        var log := lines[i];
        assert lines[i..][1..] == lines[i + 1..];
        if log[0] == "time_elapsed" && |log| >= 3 {
          st.times := st.times[log[1] := log[2]];
        }
        i := i + 1;
      }
    }

    /** The second loop of `_check_analysis_result`: every record in turn. */
    method CheckLines(st: PackageState, graphs: map<string, GraphFile>, lines: seq<Fields>) returns (o: Outcome)
      modifies this, st
      ensures Run(Snapshot(st), o) == LinesOutcome(Context(st.release, directory, graphs), old(Snapshot(st)), lines)
      ensures cwd == old(cwd) && removed == old(removed) && state == old(state)
    {
      ghost var ctx := Context(st.release, directory, graphs);
      ghost var c1 := Snapshot(st);
      var i := 0;
      while i < |lines|
        invariant 0 <= i <= |lines|
        invariant LinesOutcome(ctx, c1, lines) == LinesOutcome(ctx, Snapshot(st), lines[i..])
        invariant cwd == old(cwd) && removed == old(removed) && state == old(state)
      {
        assert lines[i..][0] == lines[i];
        assert lines[i..][1..] == lines[i + 1..];
        o := CheckLine(st, graphs, lines[i]);
        if o != Ok {
          return;
        }
        i := i + 1;
      }
      return Ok;
    }

    /** `download()` */
    method Download(st: PackageState, env: Environment) returns (o: Outcome)
      modifies st
      ensures Run(Snapshot(st), o) == DownloadOutcome(env, st.release, old(Snapshot(st)))
    {
      var d := Fetch.DownloadRelease(env.snapshot, env.pool, st.release.source, st.release.version);
      if d.Downloaded? {
        return Ok;
      } else if d.DownloadError? {
        st.errorMsg := st.errorMsg.(phase := d.phase, message := d.message, crashed := true);
        return Raised;
      }
      return Uncaught;
    }

    /** `_run_sbuild()` */
    method RunSbuild(st: PackageState, env: Environment) returns (o: Outcome)
      modifies this, st
      ensures var s := SbuildOutcome(env, st.release, st.oldCwd, old(cwd), old(Snapshot(st)));
              Run(Snapshot(st), o) == s.run && cwd == s.cwd
      ensures removed == old(removed) && state == old(state)
    {
      cwd := PathJoin(cwd, DirName(st.release));
      if env.dscFiles != 1 {
        st.errorMsg := st.errorMsg.(phase := "run_sbuild", message := DscMessage, crashed := true);
        return Raised;
      }
      if env.returnCode == 1 {
        if env.output.None? {
          // stdout.decode raises UnicodeDecodeError
          return Uncaught;
        }
        st.errorMsg := st.errorMsg.(phase := "run_sbuild", message := "Sbuild failed:\n" + env.output.value,
                                    crashed := true);
        return Raised;
      }
      cwd := st.oldCwd;
      return Ok;
    }

    /** `_cleanup()`: both trees go, relative ones below the working directory. */
    method Cleanup(st: PackageState)
      modifies this
      ensures removed == old(removed) + [PathJoin(cwd, DirName(st.release)), CallgraphDir(st.release)]
      ensures events == old(events) && cwd == old(cwd) && state == old(state)
    {
      removed := removed + [PathJoin(cwd, DirName(st.release)), CallgraphDir(st.release)];
    }

    /** The `try` body of `consume`: download, build, then read the report. */
    method Process(st: PackageState, env: Environment) returns (o: Outcome)
      requires st.oldCwd == cwd
      modifies this, st
      ensures var s := Steps(env, directory, st.release, old(cwd), old(Snapshot(st)));
              Run(Snapshot(st), o) == s.run && cwd == s.cwd
      ensures removed == old(removed) && state == old(state)
    {
      o := Download(st, env);
      if o == Ok {
        o := RunSbuild(st, env);
        if o == Ok {
          o := CheckAnalysisResult(st, env.files, env.graphs);
        }
      }
    }

    /** `consume(record)` */
    method Consume(record: map<string, string>, env: Environment)
      modifies this
      ensures var res := ConsumeOutcome(directory, old(cwd), record, env, old(events), old(removed));
              events == res.events && cwd == res.cwd && removed == res.removed
              && (res.finished ==> state == null)
    {
      var parsed := ParseRecord(record);
      if parsed.None? {
        return;
      }
      var st := new PackageState(parsed.value, cwd);
      state := st;
      events := events + [Begin];
      ghost var c0 := Snapshot(st);
      assert c0 == Check(map[], NoError, "", [], old(events) + [Begin]);
      var o := Process(st, env);
      if o == Uncaught {
        return;
      }
      Conclude(st, o);
    }

    /** The end of `consume` once the steps have returned or raised. */
    method Conclude(st: PackageState, o: Outcome)
      requires o != Uncaught
      modifies this
      ensures var f := Finish(st.release, st.oldCwd, old(removed), Sbuild(Run(old(Snapshot(st)), o), old(cwd)));
              events == f.events && cwd == f.cwd && removed == f.removed && state == null
    {
      if o == Ok {
        events := events + [Complete];
      } else {
        ProduceErrorToKafka(st);
        events := events + [Failed];
      }
      cwd := st.oldCwd;
      Cleanup(st);
      state := null;
    }
  }
}
