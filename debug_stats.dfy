/** The inspection helpers of kafka_debug/entrypoint.py over the messages read
    back from the call-graph, error and log topics: field projections, the
    releases that failed without a call graph, error statistics and the
    packages whose build never ended. A message is a decoded JSON value; a
    missing key (KeyError), indexing a non-object (TypeError) or an object used
    as a set element or dictionary key (TypeError) makes the helper raise,
    which is `None` here. */
module KafkaDebug {
  import opened Text

  /** A decoded JSON value: a string, any other hashable scalar (number,
      boolean, null) by its literal text, or an object. */
  datatype Json = Str(s: string) | Scalar(literal: string) | Obj(fields: map<string, Json>)

  /** Usable as a set element or a dictionary key. */
  predicate Hashable(v: Json) {
    !v.Obj?
  }

  /** `m[key]`; `None` when it raises. */
  function Get(m: Json, key: string): (r: Option<Json>)
    ensures r.Some? <==> m.Obj? && key in m.fields
  {
    if m.Obj? && key in m.fields then Some(m.fields[key]) else None
  }

  /** `[i[key] for i in messages]` */
  function Field(messages: seq<Json>, key: string): (r: Option<seq<Json>>)
    ensures r.Some? <==> forall i :: 0 <= i < |messages| ==> Get(messages[i], key).Some?
    ensures r.Some? ==> |r.value| == |messages|
                        && forall i :: 0 <= i < |messages| ==> r.value[i] == Get(messages[i], key).value
  {
    if messages == [] then Some([])
    else
      match (Get(messages[0], key), Field(messages[1..], key))
      case (Some(v), Some(rest)) =>
        assert forall i :: 1 <= i < |messages| ==> messages[i] == messages[1..][i - 1];
        Some([v] + rest)
      case (_, _) =>
        assert forall i :: 1 <= i < |messages| ==> messages[i] == messages[1..][i - 1];
        None
  }

  /** `get_sources` */
  function GetSources(messages: seq<Json>): Option<seq<Json>> {
    Field(messages, "source")
  }

  /** `get_packages` */
  function GetPackages(messages: seq<Json>): Option<seq<Json>> {
    Field(messages, "product")
  }

  /** `{i[key] for i in messages}` */
  function FieldSet(messages: seq<Json>, key: string): (r: Option<set<Json>>)
    ensures r.Some? <==> forall i :: 0 <= i < |messages| ==>
                           Get(messages[i], key).Some? && Hashable(Get(messages[i], key).value)
    ensures r.Some? ==> forall v :: v in r.value <==>
                          exists i :: 0 <= i < |messages| && Get(messages[i], key) == Some(v)
  {
    match Field(messages, key)
    case None => None
    case Some(vs) =>
      if forall i :: 0 <= i < |vs| ==> Hashable(vs[i]) then
        var r := set i | 0 <= i < |vs| :: vs[i];
        assert forall v :: v in r <==> exists i :: 0 <= i < |messages| && Get(messages[i], key) == Some(v) by {
          forall v ensures v in r <==> exists i :: 0 <= i < |messages| && Get(messages[i], key) == Some(v) {
            if v in r {
              var i :| 0 <= i < |vs| && vs[i] == v;
              assert Get(messages[i], key) == Some(v);
            }
          }
        }
        Some(r)
      else None
  }

  /** `get_failed(cg, errors)`: the sources with an error message and no call graph. */
  function GetFailed(cg: seq<Json>, errors: seq<Json>): (r: Option<set<Json>>)
    ensures r.Some? <==> FieldSet(cg, "source").Some? && FieldSet(errors, "source").Some?
    ensures r.Some? ==> forall v :: v in r.value <==>
              (exists i :: 0 <= i < |errors| && Get(errors[i], "source") == Some(v))
              && !(exists i :: 0 <= i < |cg| && Get(cg[i], "source") == Some(v))
  {
    match (FieldSet(cg, "source"), FieldSet(errors, "source"))
    case (Some(sources), Some(errs)) => Some(errs - sources)
    case (_, _) => None
  }

  /** A Python dictionary of counts: its keys in insertion order and the count of each. */
  datatype Counter = Counter(keys: seq<Json>, count: map<Json, nat>)

  ghost predicate ValidCounter(c: Counter) {
    (forall i, j :: 0 <= i < j < |c.keys| ==> c.keys[i] != c.keys[j])
    && (forall k :: k in c.count <==> k in c.keys)
  }

  /** `d[k] += 1` if `k in d`, else `d[k] = 1`. */
  function Bump(c: Counter, k: Json): Counter {
    if k in c.count then c.(count := c.count[k := c.count[k] + 1])
    else Counter(c.keys + [k], c.count[k := 1])
  }

  /** The sum of the counts over `keys`. */
  function SumOver(keys: seq<Json>, count: map<Json, nat>): nat
    requires forall k :: k in keys ==> k in count
  {
    if keys == [] then 0
    else SumOver(keys[..|keys| - 1], count) + count[keys[|keys| - 1]]
  }

  function Total(c: Counter): nat
    requires ValidCounter(c)
  {
    SumOver(c.keys, c.count)
  }

  lemma {:induction false} SumOverFrame(keys: seq<Json>, count: map<Json, nat>, k: Json, n: nat)
    requires forall x :: x in keys ==> x in count
    requires k !in keys
    ensures SumOver(keys, count[k := n]) == SumOver(keys, count)
    decreases |keys|
  {
    if keys != [] {
      SumOverFrame(keys[..|keys| - 1], count, k, n);
    }
  }

  lemma {:induction false} SumOverBump(keys: seq<Json>, count: map<Json, nat>, k: Json)
    requires forall x :: x in keys ==> x in count
    requires forall i, j :: 0 <= i < j < |keys| ==> keys[i] != keys[j]
    requires k in keys
    ensures SumOver(keys, count[k := count[k] + 1]) == SumOver(keys, count) + 1
    decreases |keys|
  {
    var init := keys[..|keys| - 1];
    if keys[|keys| - 1] == k {
      forall i | 0 <= i < |init|
        ensures init[i] != k
      {
        assert init[i] == keys[i];
      }
      SumOverFrame(init, count, k, count[k] + 1);
    } else {
      assert k in init by {
        var i :| 0 <= i < |keys| && keys[i] == k;
        assert init[i] == k;
      }
      SumOverBump(init, count, k);
    }
  }

  /** Counting one more key keeps the dictionary well formed and adds one to
      the total and to that key's count, and to nothing else. */
  lemma BumpCounts(c: Counter, k: Json)
    requires ValidCounter(c)
    ensures ValidCounter(Bump(c, k)) && Total(Bump(c, k)) == Total(c) + 1
    ensures k in Bump(c, k).count && Bump(c, k).count[k] == (if k in c.count then c.count[k] else 0) + 1
    ensures forall x :: x != k ==> (x in Bump(c, k).count <==> x in c.count)
    ensures forall x :: x != k && x in c.count ==> Bump(c, k).count[x] == c.count[x]
  {
    if k in c.count {
      SumOverBump(c.keys, c.count, k);
    } else {
      BumpNew(c, k);
    }
  }

  /** A new key is appended to the keys with the count 1. */
  lemma BumpNew(c: Counter, k: Json)
    requires ValidCounter(c) && k !in c.count
    ensures ValidCounter(Bump(c, k)) && Total(Bump(c, k)) == Total(c) + 1
  {
    var c' := Bump(c, k);
    assert c'.keys == c.keys + [k];
    assert c'.keys[..|c'.keys| - 1] == c.keys;
    SumOverFrame(c.keys, c.count, k, 1);
    assert ValidCounter(c') by {
      forall i, j | 0 <= i < j < |c'.keys| ensures c'.keys[i] != c'.keys[j] {
        if j == |c.keys| {
          assert c'.keys[i] == c.keys[i];
        }
      }
    }
  }

  /** `stats` of `get_error_stats` */
  datatype Stats = Stats(phase: Counter, etype: Counter)

  /** `err['error'][field]` */
  function ErrorField(err: Json, field: string): Option<Json> {
    match Get(err, "error")
    case None => None
    case Some(e) => Get(e, field)
  }

  /** The message can be counted: both fields are present and usable as keys. */
  predicate Countable(err: Json) {
    ErrorField(err, "phase").Some? && Hashable(ErrorField(err, "phase").value)
    && ErrorField(err, "type").Some? && Hashable(ErrorField(err, "type").value)
  }

  /** `get_error_stats(messages)`, message by message. */
  function ErrorStats(messages: seq<Json>): (r: Option<Stats>)
    ensures r.Some? <==> forall i :: 0 <= i < |messages| ==> Countable(messages[i])
  {
    if messages == [] then Some(Stats(Counter([], map[]), Counter([], map[])))
    else
      var init := messages[..|messages| - 1];
      var err := messages[|messages| - 1];
      assert forall i :: 0 <= i < |init| ==> init[i] == messages[i];
      match ErrorStats(init)
      case None => None
      case Some(st) =>
        if Countable(err) then
          Some(Stats(Bump(st.phase, ErrorField(err, "phase").value), Bump(st.etype, ErrorField(err, "type").value)))
        else None
  }

  /** How many messages have `value` in the error field `field`. */
  function Occurrences(messages: seq<Json>, field: string, value: Json): nat {
    if messages == [] then 0
    else Occurrences(messages[..|messages| - 1], field, value)
         + (if ErrorField(messages[|messages| - 1], field) == Some(value) then 1 else 0)
  }

  /** `c` counts, per value of `field`, the messages carrying it, lists
      exactly the values that occur, and its counts add up to the number of
      messages. */
  ghost predicate CountsField(c: Counter, messages: seq<Json>, field: string) {
    ValidCounter(c) && Total(c) == |messages|
    && (forall v :: v in c.count <==> Occurrences(messages, field, v) > 0)
    && (forall v :: v in c.count ==> c.count[v] == Occurrences(messages, field, v))
  }

  /** Each dictionary of the statistics counts its field. */
  lemma {:induction false} ErrorStatsCounts(messages: seq<Json>)
    requires ErrorStats(messages).Some?
    ensures var st := ErrorStats(messages).value;
            CountsField(st.phase, messages, "phase") && CountsField(st.etype, messages, "type")
    decreases |messages|
  {
    if messages != [] {
      var init := messages[..|messages| - 1];
      ErrorStatsCounts(init);
      var st := ErrorStats(init).value;
      BumpField(st.phase, messages, "phase");
      BumpField(st.etype, messages, "type");
    }
  }

  /** Counting the last message's value keeps the count of its field. */
  lemma BumpField(c: Counter, messages: seq<Json>, field: string)
    requires messages != [] && CountsField(c, messages[..|messages| - 1], field)
    requires ErrorField(messages[|messages| - 1], field).Some?
    ensures CountsField(Bump(c, ErrorField(messages[|messages| - 1], field).value), messages, field)
  {
    var x := ErrorField(messages[|messages| - 1], field).value;
    BumpCounts(c, x);
    BumpOccurrences(c, messages, field, x);
  }

  /** The bumped dictionary lists and counts the values of `messages`. */
  lemma BumpOccurrences(c: Counter, messages: seq<Json>, field: string, x: Json)
    requires messages != [] && ErrorField(messages[|messages| - 1], field) == Some(x)
    requires forall v :: v in c.count <==> Occurrences(messages[..|messages| - 1], field, v) > 0
    requires forall v :: v in c.count ==> c.count[v] == Occurrences(messages[..|messages| - 1], field, v)
    ensures forall v :: v in Bump(c, x).count <==> Occurrences(messages, field, v) > 0
    ensures forall v :: v in Bump(c, x).count ==> Bump(c, x).count[v] == Occurrences(messages, field, v)
  {
    forall v ensures Occurrences(messages, field, v)
                     == Occurrences(messages[..|messages| - 1], field, v) + (if v == x then 1 else 0) {
      OccurrencesLast(messages, field, v);
    }
  }

  lemma OccurrencesLast(messages: seq<Json>, field: string, v: Json)
    requires messages != [] && ErrorField(messages[|messages| - 1], field).Some?
    ensures Occurrences(messages, field, v)
            == Occurrences(messages[..|messages| - 1], field, v)
               + (if v == ErrorField(messages[|messages| - 1], field).value then 1 else 0)
  {
  }

  /** `get_error_stats`: the counting loop. */
  method GetErrorStats(messages: seq<Json>) returns (r: Option<Stats>)
    ensures r == ErrorStats(messages)
  {
    var phases := Counter([], map[]);
    var types := Counter([], map[]);
    for i := 0 to |messages|
      invariant ErrorStats(messages[..i]) == Some(Stats(phases, types))
    {
      assert messages[..i + 1][..i] == messages[..i];
      var phase := ErrorField(messages[i], "phase");
      var etype := ErrorField(messages[i], "type");
      if phase.None? || etype.None? || !Hashable(phase.value) || !Hashable(etype.value) {
        NoneStays(messages, i + 1);
        return None;
      }
      if phase.value in phases.count {
        phases := phases.(count := phases.count[phase.value := phases.count[phase.value] + 1]);
      } else {
        phases := Counter(phases.keys + [phase.value], phases.count[phase.value := 1]);
      }
      if etype.value in types.count {
        types := types.(count := types.count[etype.value := types.count[etype.value] + 1]);
      } else {
        types := Counter(types.keys + [etype.value], types.count[etype.value := 1]);
      }
    }
    assert messages[..|messages|] == messages;
    return Some(Stats(phases, types));
  }

  /** A message that cannot be counted makes the whole call raise. */
  lemma NoneStays(messages: seq<Json>, n: nat)
    requires 0 < n <= |messages| && !Countable(messages[n - 1])
    ensures ErrorStats(messages) == None
  {
    assert !Countable(messages[n - 1]);
  }

  /** The phases that open and close a package's lifecycle. */
  predicate Lifecycle(phase: Json) {
    phase == Str("begin") || phase == Str("complete") || phase == Str("failed")
  }

  /** One message of `uncomplete`: `begin` adds its package, `complete` and
      `failed` discard it, any other phase changes nothing. */
  function UncompleteStep(packages: set<Json>, log: Json): Option<set<Json>> {
    match Get(log, "phase")
    case None => None
    case Some(phase) =>
      if !Lifecycle(phase) then Some(packages)
      else match Get(log, "package")
        case None => None
        case Some(p) =>
          if !Hashable(p) then None
          else if phase == Str("begin") then Some(packages + {p})
          else Some(packages - {p})
  }

  /** `uncomplete(messages)`, message by message. */
  function Uncomplete(messages: seq<Json>): Option<set<Json>> {
    if messages == [] then Some({})
    else match Uncomplete(messages[..|messages| - 1])
      case None => None
      case Some(packages) => UncompleteStep(packages, messages[|messages| - 1])
  }

  /** The phase of the last lifecycle message about package `p`. */
  function LastLifecycle(messages: seq<Json>, p: Json): Option<Json> {
    if messages == [] then None
    else
      var log := messages[|messages| - 1];
      if Get(log, "phase").Some? && Lifecycle(Get(log, "phase").value) && Get(log, "package") == Some(p)
      then Get(log, "phase")
      else LastLifecycle(messages[..|messages| - 1], p)
  }

  /** A package is reported exactly when its last lifecycle message is `begin`. */
  lemma {:induction false} UncompleteLast(messages: seq<Json>, p: Json)
    requires Uncomplete(messages).Some?
    ensures p in Uncomplete(messages).value <==> LastLifecycle(messages, p) == Some(Str("begin"))
    decreases |messages|
  {
    if messages != [] {
      UncompleteLast(messages[..|messages| - 1], p);
    }
  }

  /** Messages of any other phase leave the set as it was. */
  lemma OtherPhaseIgnored(messages: seq<Json>, log: Json)
    requires Get(log, "phase").Some? && !Lifecycle(Get(log, "phase").value)
    ensures Uncomplete(messages + [log]) == Uncomplete(messages)
  {
    assert (messages + [log])[..|messages|] == messages;
  }

  /** `uncomplete`: the loop over the log messages. */
  method UncompleteLoop(messages: seq<Json>) returns (r: Option<set<Json>>)
    ensures r == Uncomplete(messages)
  {
    var packages: set<Json> := {};
    for i := 0 to |messages|
      invariant Uncomplete(messages[..i]) == Some(packages)
    {
      assert messages[..i + 1][..i] == messages[..i];
      var log := messages[i];
      var phase := Get(log, "phase");
      if phase.None? {
        UncompleteRaises(messages, i + 1);
        return None;
      }
      if Lifecycle(phase.value) {
        var p := Get(log, "package");
        if p.None? || !Hashable(p.value) {
          UncompleteRaises(messages, i + 1);
          return None;
        }
        if phase.value == Str("begin") {
          packages := packages + {p.value};
        } else {
          packages := packages - {p.value};
        }
      }
    }
    assert messages[..|messages|] == messages;
    return Some(packages);
  }

  /** Once a message raises, the whole call raises. */
  lemma {:induction false} UncompleteRaises(messages: seq<Json>, n: nat)
    requires 0 < n <= |messages|
    requires Uncomplete(messages[..n - 1]).Some?
    requires UncompleteStep(Uncomplete(messages[..n - 1]).value, messages[n - 1]).None?
    ensures Uncomplete(messages) == None
    decreases |messages|
  {
    assert messages[..n][..n - 1] == messages[..n - 1];
    if n < |messages| {
      assert messages[..|messages| - 1][..n - 1] == messages[..n - 1];
      assert messages[..|messages| - 1][n - 1] == messages[n - 1];
      UncompleteRaises(messages[..|messages| - 1], n);
    }
  }
}
