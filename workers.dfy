/** The bulk build driver tools/run_containers.py: input lines are queued,
    a worker runs the build container on each and routes it to the timeout,
    failed or success queue, and the queues are printed section by section.
    One worker is modelled, running to completion. */
module RunContainers {
  import opened Text

  /** The third directory `os.walk(volume/package)` yields: its path and files. */
  datatype WalkEntry = WalkEntry(dirname: string, filenames: seq<string>)

  /** The file system as the driver reads it. */
  datatype Volume = Volume(walk: string -> seq<WalkEntry>, files: map<string, seq<string>>)

  /** A report line that announces a successful analysis. */
  predicate SuccessLine(line: string) {
    Contains(line, "fcan") && Contains(line, "success")
  }

  /** `detect_report(volume, package)`: `Some(b)` is the boolean returned,
      `None` the implicit `None` when the directory has no `report`. A walk
      with fewer than three directories or an unreadable report is the
      exception turned into `False`. */
  function DetectReport(fs: Volume, volume: string, package: string): (r: Option<bool>)
  {
    var entries := fs.walk(volume + "/" + package);
    if |entries| < 3 then Some(false)
    else if "report" !in entries[2].filenames then None
    else if entries[2].dirname + "/report" !in fs.files then Some(false)
    else
      var lines := fs.files[entries[2].dirname + "/report"];
      Some(exists i :: 0 <= i < |lines| && SuccessLine(lines[i]))
  }

  /** The scan of `detect_report`, line by line with an early return. */
  method ScanReport(fs: Volume, volume: string, package: string) returns (r: Option<bool>)
    ensures r == DetectReport(fs, volume, package)
    ensures r == Some(true) <==>
              var entries := fs.walk(volume + "/" + package);
              |entries| >= 3 && "report" in entries[2].filenames && entries[2].dirname + "/report" in fs.files
              && exists i :: 0 <= i < |fs.files[entries[2].dirname + "/report"]|
                             && SuccessLine(fs.files[entries[2].dirname + "/report"][i])
    ensures r != None ==> r == Some(true) || r == Some(false)
  {
    var entries := fs.walk(volume + "/" + package);
    if |entries| < 3 {
      return Some(false);
    }
    var dirname := entries[2].dirname;
    if "report" !in entries[2].filenames {
      return None;
    }
    if dirname + "/report" !in fs.files {
      return Some(false);
    }
    var lines := fs.files[dirname + "/report"];
    var i := 0;
    while i < |lines|
      invariant 0 <= i <= |lines|
      invariant forall j :: 0 <= j < i ==> !SuccessLine(lines[j])
    {
      if SuccessLine(lines[i]) {
        return Some(true);
      }
      i := i + 1;
    }
    return Some(false);
  }

  /** How `sp.run` of the container ends. */
  datatype RunResult = Completed | TimedOut | Crashed

  /** The three result queues. */
  datatype Route = ToTimeout | ToFailed | ToSuccess

  /** Where `do_work` puts an item: a timeout to `tq`, any other exception to
      `fq`, a completed run to `sq` exactly when its report shows a success. */
  function Destination(run: string -> RunResult, fs: Volume, volume: string, val: string): Route
  {
    match run(val)
    case TimedOut => ToTimeout
    case Crashed => ToFailed
    case Completed => if DetectReport(fs, volume, val) == Some(true) then ToSuccess else ToFailed
  }

  /** An item goes to the success queue exactly when its run completed and
      its report shows a success, and to the timeout queue exactly when the
      run timed out. */
  lemma DestinationCases(run: string -> RunResult, fs: Volume, volume: string, val: string)
    ensures var d := Destination(run, fs, volume, val);
            && (d == ToSuccess <==> run(val) == Completed && DetectReport(fs, volume, val) == Some(true))
            && (d == ToTimeout <==> run(val) == TimedOut)
            && (d == ToFailed <==> run(val) == Crashed || (run(val) == Completed && DetectReport(fs, volume, val) != Some(true)))
  {
  }

  /** The body of `do_work` for one item: run the container, then look for
      the report. */
  method RunOne(run: string -> RunResult, fs: Volume, volume: string, val: string) returns (d: Route)
    ensures d == Destination(run, fs, volume, val)
  {
    var outcome := run(val);
    if outcome == TimedOut {
      return ToTimeout;
    } else if outcome == Crashed {
      return ToFailed;
    }
    var report := ScanReport(fs, volume, val);
    d := if report == Some(true) then ToSuccess else ToFailed;
  }

  /** The items of `items` routed to `q`, in order. */
  function Routed(run: string -> RunResult, fs: Volume, volume: string, items: seq<string>, q: Route)
    : (r: seq<string>)
    ensures |r| <= |items|
  {
    if items == [] then []
    else
      var init := items[..|items| - 1];
      var last := items[|items| - 1];
      assert items == init + [last];
      Routed(run, fs, volume, init, q) + (if Destination(run, fs, volume, last) == q then [last] else [])
  }

  lemma RoutedSnoc(run: string -> RunResult, fs: Volume, volume: string, items: seq<string>, x: string, q: Route)
    ensures Routed(run, fs, volume, items + [x], q)
            == Routed(run, fs, volume, items, q) + (if Destination(run, fs, volume, x) == q then [x] else [])
  {
    assert (items + [x])[..|items|] == items;
  }

  /** Routing one more item extends exactly its own queue. */
  lemma Step(run: string -> RunResult, fs: Volume, volume: string, items: seq<string>, i: nat)
    requires i < |items|
    ensures var d := Destination(run, fs, volume, items[i]);
            && Routed(run, fs, volume, items[..i + 1], ToTimeout)
               == Routed(run, fs, volume, items[..i], ToTimeout) + (if d == ToTimeout then [items[i]] else [])
            && Routed(run, fs, volume, items[..i + 1], ToFailed)
               == Routed(run, fs, volume, items[..i], ToFailed) + (if d == ToFailed then [items[i]] else [])
            && Routed(run, fs, volume, items[..i + 1], ToSuccess)
               == Routed(run, fs, volume, items[..i], ToSuccess) + (if d == ToSuccess then [items[i]] else [])
  {
    assert items[..i + 1] == items[..i] + [items[i]];
    RoutedSnoc(run, fs, volume, items[..i], items[i], ToTimeout);
    RoutedSnoc(run, fs, volume, items[..i], items[i], ToFailed);
    RoutedSnoc(run, fs, volume, items[..i], items[i], ToSuccess);
  }

  /** A queue holds exactly the items routed to it. */
  lemma {:induction false} RoutedMembers(run: string -> RunResult, fs: Volume, volume: string, items: seq<string>,
                                         q: Route, x: string)
    ensures x in Routed(run, fs, volume, items, q) <==> x in items && Destination(run, fs, volume, x) == q
    decreases |items|
  {
    if items != [] {
      var init := items[..|items| - 1];
      assert items == init + [items[|items| - 1]];
      RoutedMembers(run, fs, volume, init, q, x);
    }
  }

  /** Each item lands in exactly one queue, as often as it was queued: the
      three queues together are a permutation of the input. */
  lemma {:induction false} RoutedPartition(run: string -> RunResult, fs: Volume, volume: string, items: seq<string>)
    ensures multiset(Routed(run, fs, volume, items, ToTimeout)) + multiset(Routed(run, fs, volume, items, ToFailed))
            + multiset(Routed(run, fs, volume, items, ToSuccess)) == multiset(items)
    decreases |items|
  {
    if items != [] {
      var init := items[..|items| - 1];
      var last := items[|items| - 1];
      assert items == init + [last];
      RoutedPartition(run, fs, volume, init);
      RoutedSnoc(run, fs, volume, init, last, ToTimeout);
      RoutedSnoc(run, fs, volume, init, last, ToFailed);
      RoutedSnoc(run, fs, volume, init, last, ToSuccess);
      assert multiset(items) == multiset(init) + multiset{last};
    }
  }

  /** The loop of `do_work` over the queued items `items`: each popped item
      is run and appended to the queue it is routed to. */
  method WorkLoop(run: string -> RunResult, fs: Volume, volume: string, items: seq<string>)
    returns (t: seq<string>, f: seq<string>, s: seq<string>)
    ensures t == Routed(run, fs, volume, items, ToTimeout)
    ensures f == Routed(run, fs, volume, items, ToFailed)
    ensures s == Routed(run, fs, volume, items, ToSuccess)
  {
    t, f, s := [], [], [];
    var input := items;
    ghost var i := 0;
    while input != []
      invariant 0 <= i <= |items| && input == items[i..]
      invariant t == Routed(run, fs, volume, items[..i], ToTimeout)
      invariant f == Routed(run, fs, volume, items[..i], ToFailed)
      invariant s == Routed(run, fs, volume, items[..i], ToSuccess)
      decreases |input|
    {
      var val := input[0];
      input := input[1..];
      var d := RunOne(run, fs, volume, val);
      Step(run, fs, volume, items, i);
      if d == ToTimeout {
        t := t + [val];
      } else if d == ToFailed {
        f := f + [val];
      } else {
        s := s + [val];
      }
      i := i + 1;
    }
    assert items[..i] == items;
  }

  /** The held items of one worker: the input queue and the three result queues. */
  class Queues {
    var input: seq<string>
    var tq: seq<string>
    var fq: seq<string>
    var sq: seq<string>

    constructor ()
      ensures input == [] && tq == [] && fq == [] && sq == []
    {
      input := [];
      tq := [];
      fq := [];
      sq := [];
    }

    method Put(val: string)
      modifies this
      ensures input == old(input) + [val]
      ensures tq == old(tq) && fq == old(fq) && sq == old(sq)
    {
      input := input + [val];
    }

    /** Queues `vals` in order. */
    method Enqueue(vals: seq<string>)
      modifies this
      ensures input == old(input) + vals
      ensures tq == old(tq) && fq == old(fq) && sq == old(sq)
    {
      for i := 0 to |vals|
        invariant input == old(input) + vals[..i]
        invariant tq == old(tq) && fq == old(fq) && sq == old(sq)
      {
        assert vals[..i + 1] == vals[..i] + [vals[i]];
        Put(vals[i]);
      }
      assert vals[..|vals|] == vals;
    }

    /** `do_work`: pops until the input queue is empty and puts each item in
      its one queue. */
    method DoWork(run: string -> RunResult, fs: Volume, volume: string)
      modifies this
      ensures input == []
      ensures tq == old(tq) + Routed(run, fs, volume, old(input), ToTimeout)
      ensures fq == old(fq) + Routed(run, fs, volume, old(input), ToFailed)
      ensures sq == old(sq) + Routed(run, fs, volume, old(input), ToSuccess)
    {
      var t, f, s := WorkLoop(run, fs, volume, input);
      input, tq, fq, sq := [], tq + t, fq + f, sq + s;
    }

    /** `while not q.empty(): print(q.get())` on one of the result queues. */
    method Drain(q: Route) returns (printed: seq<string>)
      modifies this
      ensures q == ToTimeout ==> printed == old(tq) && tq == [] && fq == old(fq) && sq == old(sq)
      ensures q == ToFailed ==> printed == old(fq) && tq == old(tq) && fq == [] && sq == old(sq)
      ensures q == ToSuccess ==> printed == old(sq) && tq == old(tq) && fq == old(fq) && sq == []
      ensures input == old(input)
    {
      var rest: seq<string>;
      if q == ToTimeout {
        rest := tq;
        tq := [];
      } else if q == ToFailed {
        rest := fq;
        fq := [];
      } else {
        rest := sq;
        sq := [];
      }
      printed := PopAll(rest);
    }
  }

  /** Pops every element of a queue, in order. */
  method PopAll(queue: seq<string>) returns (printed: seq<string>)
    ensures printed == queue
  {
    printed := [];
    var rest := queue;
    while rest != []
      invariant printed + rest == queue
      decreases |rest|
    {
      printed := printed + [rest[0]];
      rest := rest[1..];
    }
  }

  /** The stripped input lines, as `main` queues them. */
  function Stripped(inp: seq<string>): (r: seq<string>)
    ensures |r| == |inp|
  {
    if inp == [] then [] else Stripped(inp[..|inp| - 1]) + [Strip(inp[|inp| - 1])]
  }

  /** What `main` prints: the three sections in order TIMEOUT, FAILED, SUCCESS. */
  function Printed(t: seq<string>, f: seq<string>, s: seq<string>): (r: seq<string>)
    ensures |r| == |t| + |f| + |s| + 3
    ensures r[0] == "###TIMEOUT###" && r[|t| + 1] == "###FAILED###" && r[|t| + |f| + 2] == "###SUCCESS###"
    ensures r[1..|t| + 1] == t && r[|t| + 2..|t| + |f| + 2] == f && r[|t| + |f| + 3..] == s
  {
    var r := ["###TIMEOUT###"] + t + ["###FAILED###"] + f + ["###SUCCESS###"] + s;
    assert r[1..|t| + 1] == t;
    assert r[|t| + 2..|t| + |f| + 2] == f;
    r
  }

  /** `main` with `processes` workers, of which one is modelled: every stripped
      input line is printed once, under the section of its queue. With no
      worker (a count of zero or less: `range` of it is empty), nothing
      leaves the input queue. */
  method RunAll(inp: seq<string>, processes: int, run: string -> RunResult, fs: Volume, volume: string)
    returns (output: seq<string>)
    ensures var items := Stripped(inp);
            processes > 0 ==> output == Printed(Routed(run, fs, volume, items, ToTimeout),
                                                 Routed(run, fs, volume, items, ToFailed),
                                                 Routed(run, fs, volume, items, ToSuccess))
    ensures processes <= 0 ==> output == Printed([], [], [])
  {
    var vals := StripLines(inp);
    var queues := new Queues();
    queues.Enqueue(vals);
    assert queues.input == vals;
    if processes > 0 {
      queues.DoWork(run, fs, volume);
      assert queues.tq == Routed(run, fs, volume, vals, ToTimeout);
      assert queues.fq == Routed(run, fs, volume, vals, ToFailed);
      assert queues.sq == Routed(run, fs, volume, vals, ToSuccess);
    }
    ghost var tq, fq, sq := queues.tq, queues.fq, queues.sq;
    var t := queues.Drain(ToTimeout);
    assert t == tq;
    var f := queues.Drain(ToFailed);
    assert f == fq;
    var s := queues.Drain(ToSuccess);
    assert s == sq;
    output := Printed(t, f, s);
  }

  /** `i.strip()` for every input line `i`, in order. */
  method StripLines(inp: seq<string>) returns (vals: seq<string>)
    ensures vals == Stripped(inp)
  {
    vals := [];
    for i := 0 to |inp|
      invariant vals == Stripped(inp[..i])
    {
      assert inp[..i + 1][..i] == inp[..i];
      vals := vals + [Strip(inp[i])];
    }
    assert inp[..|inp|] == inp;
  }

  /** Every input line shows up in the printout exactly as often as it was
      given, and in the success section only if its run completed with a
      successful report. */
  lemma PrintedPermutation(inp: seq<string>, run: string -> RunResult, fs: Volume, volume: string, x: string)
    ensures var items := Stripped(inp);
            var t, f, s := Routed(run, fs, volume, items, ToTimeout), Routed(run, fs, volume, items, ToFailed),
                           Routed(run, fs, volume, items, ToSuccess);
            multiset(t) + multiset(f) + multiset(s) == multiset(items)
            && (x in s ==> run(x) == Completed && DetectReport(fs, volume, x) == Some(true))
  {
    RoutedPartition(run, fs, volume, Stripped(inp));
    RoutedMembers(run, fs, volume, Stripped(inp), ToSuccess, x);
    DestinationCases(run, fs, volume, x);
  }
}
