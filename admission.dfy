/** The admission filter of kafka_filter_debian/entrypoint.py: a nested index
    `source -> version -> dist -> [arch]` of the releases seen so far.
    `filter_sources` answers "already seen?" and records an unseen release in
    place. */
module Admission {
  import opened Text

  /** The four fields that identify one release of a source package. */
  datatype ReleaseKey = ReleaseKey(source: string, version: string, dist: string, arch: string)

  /** The admission state as the source keeps it (and dumps it as JSON). */
  type Sources = map<string, map<string, map<string, seq<string>>>>

  /** `parse_release`: reads the mandatory fields of a release message;
      a missing field is the KeyError the source would raise. */
  function ParseRelease(release: map<string, string>): (r: Option<ReleaseKey>)
    ensures r.Some? <==> "source" in release && "source_version" in release
                         && "release" in release && "arch" in release
    ensures r.Some? ==> r.value.source == release["source"] && r.value.version == release["source_version"]
                        && r.value.dist == release["release"] && r.value.arch == release["arch"]
  {
    if "source" in release && "source_version" in release && "release" in release && "arch" in release
    then Some(ReleaseKey(release["source"], release["source_version"], release["release"], release["arch"]))
    else None
  }

  /** The index has an architecture list for source/version/dist. */
  predicate HasList(m: Sources, s: string, v: string, d: string) {
    s in m && v in m[s] && d in m[s][v]
  }

  /** The release `k` is recorded in `m`. */
  predicate Member(m: Sources, k: ReleaseKey) {
    HasList(m, k.source, k.version, k.dist) && k.arch in m[k.source][k.version][k.dist]
  }

  /** Every architecture list of `m` is still there in `m'`, as a prefix. */
  ghost predicate Extends(m: Sources, m': Sources) {
    forall s, v, d :: HasList(m, s, v, d) ==>
      HasList(m', s, v, d) && m[s][v][d] <= m'[s][v][d]
  }

  /** One call of `filter_sources` on the index `m`: the new index and the
      returned flag (true means "duplicate, drop it"). */
  function Admit(m: Sources, k: ReleaseKey): (r: (Sources, bool))
    ensures r.1 <==> Member(m, k)
    ensures r.1 ==> r.0 == m
    ensures Member(r.0, k)
    ensures forall k' :: Member(r.0, k') <==> Member(m, k') || k' == k
    ensures Extends(m, r.0)
  {
    var (s, v, d, a) := (k.source, k.version, k.dist, k.arch);
    if s !in m then
      (m[s := map[v := map[d := [a]]]], false)
    else if v !in m[s] then
      (m[s := m[s][v := map[d := [a]]]], false)
    else if d !in m[s][v] then
      (m[s := m[s][v := m[s][v][d := [a]]]], false)
    else if a !in m[s][v][d] then
      (m[s := m[s][v := m[s][v][d := m[s][v][d] + [a]]]], false)
    else
      (m, true)
  }

  /** Where `filter_sources` records an unseen release: a new branch at the
      first level where it is missing, or the architecture appended at the
      end of an existing list. */
  lemma AdmitBranches(m: Sources, k: ReleaseKey)
    ensures var r := Admit(m, k);
            && (k.source !in m ==> r.0 == m[k.source := map[k.version := map[k.dist := [k.arch]]]])
            && (k.source in m && k.version !in m[k.source] ==>
                  r.0 == m[k.source := m[k.source][k.version := map[k.dist := [k.arch]]]])
            && (k.source in m && k.version in m[k.source] && k.dist !in m[k.source][k.version] ==>
                  r.0 == m[k.source := m[k.source][k.version := m[k.source][k.version][k.dist := [k.arch]]]])
            && (HasList(m, k.source, k.version, k.dist) && !r.1 ==>
                  r.0 == m[k.source := m[k.source][k.version := m[k.source][k.version][k.dist :=
                                                    m[k.source][k.version][k.dist] + [k.arch]]]])
  {
  }

  /** The index and the flags after a stream of releases, one call each. */
  function AdmitStream(m: Sources, ks: seq<ReleaseKey>): (r: (Sources, seq<bool>))
    ensures |r.1| == |ks|
    decreases |ks|
  {
    if ks == [] then (m, [])
    else
      var (m1, seen) := Admit(m, ks[0]);
      var (m2, flags) := AdmitStream(m1, ks[1..]);
      (m2, [seen] + flags)
  }

  /** The releases a stream lets through (those `filter_sources` had not seen), in order. */
  function Forwarded(ks: seq<ReleaseKey>, flags: seq<bool>): seq<ReleaseKey>
    requires |flags| == |ks|
  {
    if ks == [] then [] else (if flags[0] then [] else [ks[0]]) + Forwarded(ks[1..], flags[1..])
  }

  /** Nothing recorded is ever removed: after any stream, the index holds exactly
      what it held before plus every release of the stream. */
  lemma {:induction false} StreamMembership(m: Sources, ks: seq<ReleaseKey>)
    ensures forall k :: Member(AdmitStream(m, ks).0, k) <==> Member(m, k) || k in ks
    decreases |ks|
  {
    if ks != [] {
      StreamMembership(Admit(m, ks[0]).0, ks[1..]);
      assert forall k :: k in ks <==> k == ks[0] || k in ks[1..];
    }
  }

  /** Exactly-once admission: a release is let through once if the starting index
      (the persisted state) did not hold it and it occurs in the stream, and never
      otherwise, however often it is repeated. */
  lemma {:induction false} ForwardedOnce(m: Sources, ks: seq<ReleaseKey>, k: ReleaseKey)
    ensures var flags := AdmitStream(m, ks).1;
            multiset(Forwarded(ks, flags))[k] == if k in ks && !Member(m, k) then 1 else 0
    decreases |ks|
  {
    if ks != [] {
      var m1 := Admit(m, ks[0]).0;
      var seen := Admit(m, ks[0]).1;
      var tailFlags := AdmitStream(m1, ks[1..]).1;
      var flags := AdmitStream(m, ks).1;
      assert flags == [seen] + tailFlags;
      assert flags[1..] == tailFlags;
      ForwardedOnce(m1, ks[1..], k);
      var head := if seen then [] else [ks[0]];
      assert Forwarded(ks, flags) == head + Forwarded(ks[1..], tailFlags);
      assert multiset(Forwarded(ks, flags))[k] == multiset(head)[k] + multiset(Forwarded(ks[1..], tailFlags))[k];
      assert k in ks <==> k == ks[0] || k in ks[1..];
      if k == ks[0] {
        assert Member(m1, k);
      } else {
        assert Member(m1, k) <==> Member(m, k);
      }
    }
  }

  /** The filter as the source has it: an object owning the nested dictionary,
      updated in place by `filter_sources`. */
  class SourceIndex {
    var sources: Sources

    constructor (initial: Sources)
      ensures sources == initial
    {
      sources := initial;
    }

    /** `filter_sources(sources, release)` */
    method FilterSources(release: map<string, string>) returns (seen: bool)
      requires ParseRelease(release).Some?
      modifies this
      ensures (sources, seen) == Admit(old(sources), ParseRelease(release).value)
    {
      var k := ParseRelease(release).value;
      var (s, v, d, a) := (k.source, k.version, k.dist, k.arch);
      if s !in sources {
        sources := sources[s := map[v := map[d := [a]]]];
        return false;
      } else if v !in sources[s] {
        sources := sources[s := sources[s][v := map[d := [a]]]];
        return false;
      } else if d !in sources[s][v] {
        sources := sources[s := sources[s][v := sources[s][v][d := [a]]]];
        return false;
      } else if a !in sources[s][v][d] {
        sources := sources[s := sources[s][v := sources[s][v][d := sources[s][v][d] + [a]]]];
        return false;
      }
      return true;
    }
  }

  /** A second call with the same release always reports a duplicate. */
  method SecondCallSeesDuplicate(index: SourceIndex, release: map<string, string>)
    returns (first: bool, second: bool)
    requires ParseRelease(release).Some?
    modifies index
    ensures second
    ensures first == Member(old(index.sources), ParseRelease(release).value)
  {
    first := index.FilterSources(release);
    second := index.FilterSources(release);
  }
}
