/** separate.py: splits a CScout `make.cs` file into one file per project.
    Lines are buffered; a `#pragma block_exit` that closes the outermost
    block writes the buffer to the current project's file. File writes are
    recorded in order; a later write of the same path replaces the earlier
    one, as opening with 'w' does. The script creates only `cscout_files`,
    so a write into a directory below it that does not already exist raises
    FileNotFoundError: the script stops there and prints nothing. */
module Separate {
  import opened Text

  const Directory: string := "cscout_files"

  /** `can_project(project)`: `/` becomes `__` only when `project.find('/')`
      is 0, that is when the name starts with `/`. */
  function CanProject(project: string): (r: string)
    ensures StartsWith(project, "/") ==> r == Directory + "/" + ReplaceChar(project, '/', "__") + ".cs"
    ensures !StartsWith(project, "/") ==> r == Directory + "/" + project + ".cs"
  {
    var p := if Find(project, "/", 0) == 0 then ReplaceChar(project, '/', "__") else project;
    FindZero(project);
    Directory + "/" + p + ".cs"
  }

  /** `s.find('/') == 0` exactly when `s` starts with `/`. */
  lemma FindZero(s: string)
    ensures Find(s, "/", 0) == 0 <==> StartsWith(s, "/")
  {
    if StartsWith(s, "/") {
      assert OccursAt(s, "/", 0);
    }
  }

  /** A project file name starting with `/` comes out without any `/` after the directory. */
  lemma AbsoluteProjectFlattened(project: string)
    requires StartsWith(project, "/")
    ensures var r := CanProject(project);
            StartsWith(r, Directory + "/") && '/' !in r[|Directory| + 1..]
  {
    var r := CanProject(project);
    var p := ReplaceChar(project, '/', "__");
    assert r == Directory + "/" + (p + ".cs");
    assert r[|Directory| + 1..] == p + ".cs";
  }

  /** The directory part of a path: what comes before its last `/`, or ""
      for a path without one. */
  function Parent(path: string): (r: string)
    ensures '/' !in path ==> r == ""
    ensures '/' in path ==> |r| < |path| && r == path[..|r|] && path[|r|] == '/' && '/' !in path[|r| + 1..]
  {
    if path == [] then ""
    else if path[|path| - 1] == '/' then path[..|path| - 1]
    else
      var r := Parent(path[..|path| - 1]);
      assert '/' in path ==> '/' in path[..|path| - 1] by {
        if '/' in path {
          var i :| 0 <= i < |path| && path[i] == '/';
          assert path[..|path| - 1][i] == '/';
        }
      }
      assert '/' in path[..|path| - 1] ==> path[..|path| - 1][|r| + 1..] + [path[|path| - 1]] == path[|r| + 1..];
      r
  }

  /** `open(path, 'w')` finds the directory of `path`: `cscout_files`, which
      the script makes, or one of the directories `dirs` that exist already. */
  predicate Writable(path: string, dirs: set<string>) {
    Parent(path) == Directory || Parent(path) in dirs
  }

  /** A path `dir/name` whose name holds no `/` lies in `dir`. */
  lemma ParentOfFlat(dir: string, name: string)
    requires '/' !in name
    ensures Parent(dir + "/" + name) == dir
  {
    var path := dir + "/" + name;
    assert path[|dir|] == '/';
  }

  /** A path `dir/name` whose name holds a `/` lies below `dir`, not in it. */
  lemma ParentOfNested(dir: string, name: string)
    requires '/' in name
    ensures |Parent(dir + "/" + name)| > |dir|
  {
    var path := dir + "/" + name;
    var i :| 0 <= i < |name| && name[i] == '/';
    assert path[|dir| + 1 + i] == '/';
  }

  /** The file of a project is always writable when its name becomes flat
      (no `/`, or a leading one); a name with a `/` elsewhere needs its
      sub-directory of `cscout_files` to exist already. */
  lemma ProjectFileWritable(project: string, dirs: set<string>)
    ensures '/' !in project || StartsWith(project, "/") ==> Writable(CanProject(project), dirs)
    ensures '/' in project && !StartsWith(project, "/") ==>
              (Writable(CanProject(project), dirs) <==> Parent(CanProject(project)) in dirs)
  {
    var p := if StartsWith(project, "/") then ReplaceChar(project, '/', "__") else project;
    assert CanProject(project) == Directory + "/" + (p + ".cs");
    if '/' !in p {
      assert '/' !in p + ".cs";
      ParentOfFlat(Directory, p + ".cs");
    } else {
      assert '/' in p + ".cs" by {
        var i :| 0 <= i < |p| && p[i] == '/';
        assert (p + ".cs")[i] == '/';
      }
      ParentOfNested(Directory, p + ".cs");
    }
  }

  /** One write of `f.writelines(new_csmake)`. */
  datatype Write = Write(path: string, lines: seq<string>)

  /** The module-level variables of the script, the writes made so far, and
      whether a write has raised and stopped the script. */
  datatype Splitter = Splitter(projects: seq<string>, buffer: seq<string>, current: string,
                               counter: int, writes: seq<Write>, stopped: bool)

  const Start := Splitter([], [], "", 0, [], false)

  predicate Echo(line: string) {
    StartsWith(line, "#pragma echo")
  }

  /** The text between the first and the second `"` of a `#pragma project` line. */
  function ProjectName(line: string): (r: string)
  {
    var start := Find(line, "\"", 0);
    var end := Find(line, "\"", start + 1);
    Slice(line, start + 1, end)
  }

  /** The body of the loop for one line; nothing runs once a write has raised. */
  function Step(st: Splitter, line: string, dirs: set<string>): (r: Splitter)
  {
    if st.stopped || Echo(line) then st
    else if StartsWith(line, "#pragma project") then
      var p := ProjectName(line);
      st.(current := p, projects := st.projects + [p], buffer := st.buffer + [line])
    else if StartsWith(line, "#pragma block_enter") then
      st.(counter := st.counter + 1, buffer := st.buffer + [line])
    else if StartsWith(line, "#pragma block_exit") then
      if st.counter - 1 == 0 then
        if Writable(CanProject(st.current), dirs) then
          st.(counter := 0, buffer := [], writes := st.writes + [Write(CanProject(st.current), st.buffer + [line])])
        else st.(counter := 0, buffer := st.buffer + [line], stopped := true)
      else st.(counter := st.counter - 1, buffer := st.buffer + [line])
    else st.(buffer := st.buffer + [line])
  }

  /** The four pragmas the loop tests for start differently, so a line is
      at most one of them. */
  lemma PragmasDiffer(line: string)
    ensures StartsWith(line, "#pragma block_exit") ==>
              !Echo(line) && !StartsWith(line, "#pragma project") && !StartsWith(line, "#pragma block_enter")
    ensures StartsWith(line, "#pragma project") ==> !Echo(line)
  {
    if StartsWith(line, "#pragma block_exit") {
      assert line[8] == 'b' && line[15] == 'x';
    }
    if StartsWith(line, "#pragma project") {
      assert line[8] == 'p';
    }
  }

  /** A `block_exit` line that closes the outermost block, the counter going
      from 1 to 0, of a project whose file can be opened. */
  predicate Closes(st: Splitter, line: string, dirs: set<string>) {
    !st.stopped && StartsWith(line, "#pragma block_exit") && st.counter == 1
    && Writable(CanProject(st.current), dirs)
  }

  /** A line writes exactly when it closes the outermost block and the
      project's file can be opened: it writes the buffer followed by the line
      to the current project's file, empties the buffer and leaves the
      counter at 0. Every other line writes nothing. */
  lemma StepWrite(st: Splitter, line: string, dirs: set<string>)
    ensures Closes(st, line, dirs) ==>
              Step(st, line, dirs)
              == st.(counter := 0, buffer := [], writes := st.writes + [Write(CanProject(st.current), st.buffer + [line])])
    ensures !Closes(st, line, dirs) ==> Step(st, line, dirs).writes == st.writes
  {
    PragmasDiffer(line);
  }

  /** A line stops the script exactly when it is a `block_exit` closing the
      outermost block of a project whose file cannot be opened. */
  lemma StepStops(st: Splitter, line: string, dirs: set<string>)
    requires !st.stopped
    ensures Step(st, line, dirs).stopped
            <==> StartsWith(line, "#pragma block_exit") && st.counter == 1 && !Writable(CanProject(st.current), dirs)
  {
    PragmasDiffer(line);
  }

  /** The loop over `contents`, the directories `dirs` existing beforehand. */
  function Run(contents: seq<string>, dirs: set<string>): Splitter {
    if contents == [] then Start
    else Step(Run(contents[..|contents| - 1], dirs), contents[|contents| - 1], dirs)
  }

  /** The script: the files it writes and whether it completes; only then
      does it print the number of projects and the projects. */
  method SplitMake(contents: seq<string>, dirs: set<string>)
    returns (completed: bool, count: nat, projects: seq<string>, writes: seq<Write>)
    ensures var st := Run(contents, dirs);
            completed == !st.stopped && writes == st.writes
            && (completed ==> projects == st.projects && count == |projects|)
    ensures completed ==> projects == ProjectNames(contents)
  {
    projects := [];
    var newCsmake: seq<string> := [];
    var currentProject := "";
    var blockCounter := 0;
    writes := [];
    for i := 0 to |contents|
      invariant Run(contents[..i], dirs) == Splitter(projects, newCsmake, currentProject, blockCounter, writes, false)
    {
      RunNext(contents, i, dirs);
      var line := contents[i];
      if StartsWith(line, "#pragma echo") {
        continue;
      }
      if StartsWith(line, "#pragma project") {
        var start := Find(line, "\"", 0);
        var end := Find(line, "\"", start + 1);
        currentProject := Slice(line, start + 1, end);
        projects := projects + [currentProject];
        newCsmake := newCsmake + [line];
        continue;
      }
      if StartsWith(line, "#pragma block_enter") {
        blockCounter := blockCounter + 1;
        newCsmake := newCsmake + [line];
        continue;
      }
      if StartsWith(line, "#pragma block_exit") {
        blockCounter := blockCounter - 1;
        newCsmake := newCsmake + [line];
        if blockCounter == 0 {
          if !Writable(CanProject(currentProject), dirs) {
            // open raises FileNotFoundError: the script ends here
            StopsAt(contents, i, dirs);
            return false, 0, [], writes;
          }
          writes := writes + [Write(CanProject(currentProject), newCsmake)];
          newCsmake := [];
        }
        continue;
      }
      newCsmake := newCsmake + [line];
    }
    assert contents[..|contents|] == contents;
    ProjectsListed(contents, dirs);
    completed := true;
    count := |projects|;
  }

  /** The loop reads line `i` after the lines before it. */
  lemma RunNext(contents: seq<string>, i: nat, dirs: set<string>)
    requires i < |contents|
    ensures Run(contents[..i + 1], dirs) == Step(Run(contents[..i], dirs), contents[i], dirs)
  {
    assert contents[..i + 1][..i] == contents[..i];
  }

  /** A run stopped at line `i` ends in the state after that line. */
  lemma StopsAt(contents: seq<string>, i: nat, dirs: set<string>)
    requires i < |contents| && Run(contents[..i + 1], dirs).stopped
    ensures Run(contents, dirs) == Run(contents[..i + 1], dirs)
  {
    StoppedStays(contents[..i + 1], contents[i + 1..], dirs);
    assert contents[..i + 1] + contents[i + 1..] == contents;
  }

  /** After a write has raised, later lines change nothing. */
  lemma {:induction false} StoppedStays(a: seq<string>, b: seq<string>, dirs: set<string>)
    requires Run(a, dirs).stopped
    ensures Run(a + b, dirs) == Run(a, dirs)
    decreases |b|
  {
    if b == [] {
      assert a + b == a;
    } else {
      var b' := b[..|b| - 1];
      assert (a + b)[..|a + b| - 1] == a + b';
      StoppedStays(a, b', dirs);
    }
  }

  /** The lines that are not `#pragma echo`, in order. */
  function Kept(contents: seq<string>): (r: seq<string>)
    ensures |r| <= |contents|
  {
    if contents == [] then []
    else Kept(contents[..|contents| - 1]) + (if Echo(contents[|contents| - 1]) then [] else [contents[|contents| - 1]])
  }

  function Flatten(writes: seq<Write>): seq<string> {
    if writes == [] then [] else Flatten(writes[..|writes| - 1]) + writes[|writes| - 1].lines
  }

  /** Every line that is not an echo pragma is buffered exactly once: the
      written blocks, in order, followed by what is still buffered, are the
      kept lines. So the lines after the last balancing `block_exit` are
      exactly the buffer, which is never written. */
  lemma {:induction false} LinesConserved(contents: seq<string>, dirs: set<string>)
    requires !Run(contents, dirs).stopped
    ensures Flatten(Run(contents, dirs).writes) + Run(contents, dirs).buffer == Kept(contents)
    decreases |contents|
  {
    if contents != [] {
      var init := contents[..|contents| - 1];
      var line := contents[|contents| - 1];
      assert !Run(init, dirs).stopped;
      LinesConserved(init, dirs);
      StepConserves(Run(init, dirs), line, dirs);
    }
  }

  /** One line that does not stop the script adds itself, unless it is an
      echo pragma, to the written and buffered lines. */
  lemma StepConserves(st: Splitter, line: string, dirs: set<string>)
    requires !Step(st, line, dirs).stopped
    ensures var r := Step(st, line, dirs);
            Flatten(r.writes) + r.buffer
            == Flatten(st.writes) + st.buffer + (if Echo(line) then [] else [line])
  {
    var w := Flatten(st.writes);
    if !Echo(line) && !StartsWith(line, "#pragma project") && !StartsWith(line, "#pragma block_enter")
       && StartsWith(line, "#pragma block_exit") && st.counter - 1 == 0 {
      var wr := Write(CanProject(st.current), st.buffer + [line]);
      assert (st.writes + [wr])[..|st.writes|] == st.writes;
      assert w + (st.buffer + [line]) == (w + st.buffer) + [line];
    } else if !Echo(line) {
      assert w + (st.buffer + [line]) == (w + st.buffer) + [line];
    }
  }

  /** Every write ends with the `block_exit` line that brought the counter
      back to zero, and goes to the file of the project current at that
      point: write `k` was made by some line `i` that closes the outermost
      block, holding the buffer then followed by that line. */
  lemma {:induction false} WritesEndAtExit(contents: seq<string>, dirs: set<string>, k: nat)
    requires k < |Run(contents, dirs).writes|
    ensures ClosingWrite(Run(contents, dirs).writes[k], dirs)
    ensures exists i :: WrittenAt(contents, dirs, i, k)
    decreases |contents|
  {
    var n := |contents| - 1;
    var init := contents[..n];
    var st := Run(init, dirs);
    var line := contents[n];
    StepWrite(st, line, dirs);
    var ws := Run(contents, dirs).writes;
    if k < |st.writes| {
      WritesEndAtExit(init, dirs, k);
      assert ws[k] == st.writes[k];
      var i :| WrittenAt(init, dirs, i, k);
      WrittenAtExtends(init, contents, dirs, i, k);
    } else {
      NewWriteCloses(st, line, dirs);
      WrittenAtLast(contents, dirs, k);
    }
  }

  lemma WrittenAtExtends(init: seq<string>, contents: seq<string>, dirs: set<string>, i: int, k: nat)
    requires |contents| >= 1 && init == contents[..|contents| - 1]
    requires WrittenAt(init, dirs, i, k)
    requires k < |Run(contents, dirs).writes| && Run(contents, dirs).writes[k] == Run(init, dirs).writes[k]
    ensures WrittenAt(contents, dirs, i, k)
  {
    assert init[..i] == contents[..i];
  }

  lemma WrittenAtLast(contents: seq<string>, dirs: set<string>, k: nat)
    requires |contents| >= 1
    requires var st := Run(contents[..|contents| - 1], dirs);
             Closes(st, contents[|contents| - 1], dirs) && |st.writes| == k
    ensures WrittenAt(contents, dirs, |contents| - 1, k)
  {
    StepWrite(Run(contents[..|contents| - 1], dirs), contents[|contents| - 1], dirs);
  }

  /** Line `i` made write `k`: it closes the outermost block of the project
      current before it, and the write holds the buffer then and the line. */
  ghost predicate WrittenAt(contents: seq<string>, dirs: set<string>, i: int, k: nat) {
    0 <= i < |contents| && k < |Run(contents, dirs).writes|
    && var before := Run(contents[..i], dirs);
    Closes(before, contents[i], dirs) && |before.writes| == k
    && Run(contents, dirs).writes[k] == Write(CanProject(before.current), before.buffer + [contents[i]])
  }

  /** A write that ends with a `block_exit` line and goes to a project's
      file whose directory exists. */
  ghost predicate ClosingWrite(wr: Write, dirs: set<string>) {
    |wr.lines| >= 1 && StartsWith(wr.lines[|wr.lines| - 1], "#pragma block_exit")
    && Writable(wr.path, dirs) && exists p :: wr.path == CanProject(p)
  }

  lemma NewWriteCloses(st: Splitter, line: string, dirs: set<string>)
    requires StartsWith(line, "#pragma block_exit") && Writable(CanProject(st.current), dirs)
    ensures ClosingWrite(Write(CanProject(st.current), st.buffer + [line]), dirs)
  {
    var lines := st.buffer + [line];
    assert lines[|lines| - 1] == line;
  }

  /** A script that stops was stopped by one line: a `block_exit` closing the
      outermost block of a project whose file cannot be opened. Every line
      before it went on normally, and nothing after it was read. */
  lemma {:induction false} StopCause(contents: seq<string>, dirs: set<string>)
    requires Run(contents, dirs).stopped
    ensures exists k :: StoppedAt(contents, dirs, k)
    decreases |contents|
  {
    var n := |contents| - 1;
    var init := contents[..n];
    if Run(init, dirs).stopped {
      StopCause(init, dirs);
      var k :| StoppedAt(init, dirs, k);
      StoppedAtExtends(init, contents, dirs, k);
    } else {
      StepStops(Run(init, dirs), contents[n], dirs);
      assert contents[..n + 1] == contents;
      assert StoppedAt(contents, dirs, n);
    }
  }

  /** Line `k` is the `block_exit` whose write raised: the lines before it ran
      normally, and the state after it is the final one. */
  ghost predicate StoppedAt(contents: seq<string>, dirs: set<string>, k: int) {
    0 <= k < |contents| && Run(contents, dirs).stopped && !Run(contents[..k], dirs).stopped
    && Run(contents[..k + 1], dirs) == Run(contents, dirs)
    && StartsWith(contents[k], "#pragma block_exit") && Run(contents[..k], dirs).counter == 1
    && !Writable(CanProject(Run(contents[..k], dirs).current), dirs)
  }

  lemma StoppedAtExtends(init: seq<string>, contents: seq<string>, dirs: set<string>, k: int)
    requires |contents| >= 1 && init == contents[..|contents| - 1]
    requires StoppedAt(init, dirs, k)
    ensures StoppedAt(contents, dirs, k)
  {
    assert init[..k] == contents[..k] && init[..k + 1] == contents[..k + 1];
    StoppedLast(contents, dirs);
  }

  lemma StoppedLast(contents: seq<string>, dirs: set<string>)
    requires |contents| >= 1 && Run(contents[..|contents| - 1], dirs).stopped
    ensures Run(contents, dirs) == Run(contents[..|contents| - 1], dirs)
  {
  }

  /** The names of the `#pragma project` lines, in order. */
  function ProjectNames(contents: seq<string>): seq<string> {
    if contents == [] then []
    else
      var line := contents[|contents| - 1];
      ProjectNames(contents[..|contents| - 1]) + (if StartsWith(line, "#pragma project") then [ProjectName(line)] else [])
  }

  /** While nothing has stopped the script, the printed list holds the names
      of the `#pragma project` lines in file order, and the current project
      is the last of them, or "" before the first. */
  lemma {:induction false} ProjectsListed(contents: seq<string>, dirs: set<string>)
    requires !Run(contents, dirs).stopped
    ensures Run(contents, dirs).projects == ProjectNames(contents)
    ensures Run(contents, dirs).current
            == if ProjectNames(contents) == [] then "" else ProjectNames(contents)[|ProjectNames(contents)| - 1]
    decreases |contents|
  {
    if contents != [] {
      ProjectsListed(contents[..|contents| - 1], dirs);
      PragmasDiffer(contents[|contents| - 1]);
    }
  }

  /** The nesting counter is the number of `block_enter` lines minus the
      number of `block_exit` lines since the start. */
  function Depth(contents: seq<string>): int {
    if contents == [] then 0
    else
      var line := contents[|contents| - 1];
      Depth(contents[..|contents| - 1])
      + (if Echo(line) || StartsWith(line, "#pragma project") then 0
         else if StartsWith(line, "#pragma block_enter") then 1
         else if StartsWith(line, "#pragma block_exit") then -1
         else 0)
  }

  lemma {:induction false} CounterIsDepth(contents: seq<string>, dirs: set<string>)
    requires !Run(contents, dirs).stopped
    ensures Run(contents, dirs).counter == Depth(contents)
    decreases |contents|
  {
    if contents != [] {
      CounterIsDepth(contents[..|contents| - 1], dirs);
    }
  }

  /** A `#pragma project` line names the text between its first two quotes. */
  lemma ProjectBetweenQuotes(pre: string, name: string, post: string)
    requires '"' !in pre && '"' !in name
    ensures ProjectName(pre + "\"" + name + "\"" + post) == name
  {
    var line := pre + "\"" + name + "\"" + post;
    assert line == pre + ['"'] + (name + "\"" + post);
    FindAfter(pre, '"', name + "\"" + post);
    var start := |pre|;
    var rest := line[start + 1..];
    assert rest == name + ['"'] + post;
    FindAfter(name, '"', post);
    FindShift(line, start + 1, |name|);
  }

  /** A search from position `k` sees the suffix from `k` onwards. */
  lemma FindShift(s: string, k: nat, j: nat)
    requires k <= |s| && Find(s[k..], "\"", 0) == j
    ensures Find(s, "\"", k) == k + j
  {
    FindFrom(s, k, k, j);
  }

  lemma {:induction false} FindFrom(s: string, k: nat, m: nat, j: nat)
    requires k <= m <= |s| && Find(s[k..], "\"", m - k) == j
    ensures Find(s, "\"", m) == k + j
    decreases |s| - m
  {
    var t := s[k..];
    if m + 1 > |s| {
    } else if s[m..m + 1] == "\"" {
      assert t[m - k..m - k + 1] == s[m..m + 1];
    } else {
      assert t[m - k..m - k + 1] == s[m..m + 1];
      FindFrom(s, k, m + 1, j);
    }
  }

  /** Echo pragmas change nothing. */
  lemma EchoDropped(contents: seq<string>, dirs: set<string>, line: string)
    requires Echo(line)
    ensures Run(contents + [line], dirs) == Run(contents, dirs)
  {
    assert (contents + [line])[..|contents|] == contents;
  }
}
