/** `PackageState` of kafka_sbuild/entrypoint.py: the release a build is for,
    the directories derived from it, and the fields the build steps update. */
module Package {
  import opened Text

  /** The identifying fields of a release record; `forge` defaults to "debian". */
  datatype Release = Release(source: string, version: string, dist: string, arch: string, forge: string)

  /** A release whose source name has a first letter, as `source[0]` needs. */
  type SourceRelease = r: Release | r.source != "" witness Release("0", "", "", "", "debian")

  /** What `PackageState(record)` reads from the record. It raises (KeyError, or
      IndexError on `source[0]`) for a missing field or an empty source name. */
  function ParseRecord(record: map<string, string>): (r: Option<SourceRelease>)
    ensures r.Some? <==> "source" in record && "version" in record && "release" in record
                         && "arch" in record && record["source"] != ""
    ensures r.Some? ==> r.value.source == record["source"] && r.value.version == record["version"]
                        && r.value.dist == record["release"] && r.value.arch == record["arch"]
    ensures r.Some? ==> r.value.forge == if "forge" in record then record["forge"] else "debian"
  {
    if "source" in record && "version" in record && "release" in record && "arch" in record
       && record["source"] != ""
    then
      var forge := if "forge" in record then record["forge"] else "debian";
      var release: SourceRelease := Release(record["source"], record["version"], record["release"], record["arch"], forge);
      Some(release)
    else None
  }

  /** `dir_name`: the working directory of the download and the build. */
  function DirName(r: Release): string {
    r.source + "-" + r.dist + "-" + r.arch + "-" + r.version
  }

  /** `callgraph_dir`: where the build leaves its report and call graphs. */
  function CallgraphDir(r: Release): string {
    "/callgraphs/" + r.source + "/" + r.dist + "/" + r.version + "/" + r.arch + "/"
  }

  /** `source_dir`: where the build leaves the unpacked sources. */
  function SourceDir(r: SourceRelease): string
  {
    "/sources/" + r.dist + "/" + [r.source[0]] + "/" + r.source + "/" + r.version
  }

  /** `dst`: the sources' place below the output directory. */
  function Dst(r: SourceRelease): string
  {
    "sources/" + [r.source[0]] + "/" + r.source + "/" + r.version
  }

  /** `get_cg_dst(pkg)`: the call graph of binary package `pkg` below the output directory. */
  function CgDst(r: Release, pkg: string): string
    requires pkg != ""
  {
    "callgraphs/" + [pkg[0]] + "/" + pkg + "/" + r.dist + "/" + r.version + "/" + r.arch
  }

  /** `get_sources_dst(pkg)` */
  function SourcesDst(r: Release, pkg: string): string
    requires pkg != ""
  {
    "sources/" + [pkg[0]] + "/" + pkg + "/" + r.version
  }

  /** No field contains the character `c`. */
  predicate FieldsFree(r: Release, c: char) {
    c !in r.source && c !in r.version && c !in r.dist && c !in r.arch
  }

  /** `dir_name` is source, dist, arch and version joined with `-`. */
  lemma DirNameJoin(r: Release)
    ensures Join([r.source, r.dist, r.arch, r.version], "-") == DirName(r)
  {
    var parts := [r.source, r.dist, r.arch, r.version];
    assert Join(parts[2..], "-") == r.arch + "-" + r.version;
  }

  /** `dir_name` splits back into source, dist, arch and version on `-` when
      none of them holds one. */
  lemma DirNameFields(r: Release)
    requires FieldsFree(r, '-')
    ensures Split(DirName(r), "-") == [r.source, r.dist, r.arch, r.version]
  {
    DirNameJoin(r);
    SplitJoin([r.source, r.dist, r.arch, r.version], '-');
  }

  /** `callgraph_dir` is the absolute directory callgraphs/source/dist/version/arch. */
  lemma CallgraphDirFields(r: Release)
    requires FieldsFree(r, '/')
    ensures Split(CallgraphDir(r), "/") == ["", "callgraphs", r.source, r.dist, r.version, r.arch, ""]
  {
    var parts := ["", "callgraphs", r.source, r.dist, r.version, r.arch, ""];
    CallgraphDirJoin(r);
    assert forall i :: 0 <= i < |parts| ==> '/' !in parts[i];
    SplitJoin(parts, '/');
  }

  lemma CallgraphDirJoin(r: Release)
    ensures Join(["", "callgraphs", r.source, r.dist, r.version, r.arch, ""], "/") == CallgraphDir(r)
  {
    var p2 := [r.source, r.dist, r.version, r.arch, ""];
    var tail := r.source + "/" + r.dist + "/" + r.version + "/" + r.arch + "/";
    ComponentsJoin(r.source, r.dist, r.version, r.arch);
    var p1 := ["callgraphs"] + p2;
    JoinCons("callgraphs", p2, "/");
    JoinCons("", p1, "/");
    assert [""] + p1 == ["", "callgraphs", r.source, r.dist, r.version, r.arch, ""];
    assert "" + "/" + ("callgraphs" + "/" + tail) == "/callgraphs/" + tail;
  }

  lemma ComponentsJoin(a: string, b: string, c: string, d: string)
    ensures Join([a, b, c, d, ""], "/") == a + "/" + b + "/" + c + "/" + d + "/"
  {
    var p4 := [d, ""];
    assert Join(p4, "/") == d + "/" + "";
    var p3 := [c] + p4;
    JoinCons(c, p4, "/");
    var p2 := [b] + p3;
    JoinCons(b, p3, "/");
    JoinCons(a, p2, "/");
    assert [a] + p2 == [a, b, c, d, ""];
  }

  /** Four components joined with `/`. */
  lemma JoinFour(a: string, b: string, c: string, d: string)
    ensures Join([a, b, c, d], "/") == a + "/" + b + "/" + c + "/" + d
  {
    var p2 := [c, d];
    assert Join(p2, "/") == c + "/" + d;
    var p3 := [b] + p2;
    JoinCons(b, p2, "/");
    JoinCons(a, p3, "/");
    assert [a] + p3 == [a, b, c, d];
  }

  /** Six components joined with `/`. */
  lemma JoinSix(a: string, b: string, c: string, d: string, e: string, f: string)
    ensures Join([a, b, c, d, e, f], "/") == a + "/" + b + "/" + c + "/" + d + "/" + e + "/" + f
  {
    var p4 := [c, d, e, f];
    JoinFour(c, d, e, f);
    var p5 := [b] + p4;
    JoinCons(b, p4, "/");
    JoinCons(a, p5, "/");
    assert [a] + p5 == [a, b, c, d, e, f];
  }

  /** The call graph of `pkg` sits in the bucket of its first letter, then
      below pkg/dist/version/arch. */
  lemma CgDstFields(r: Release, pkg: string)
    requires pkg != "" && '/' !in pkg && FieldsFree(r, '/')
    ensures Split(CgDst(r, pkg), "/") == ["callgraphs", [pkg[0]], pkg, r.dist, r.version, r.arch]
  {
    var parts := ["callgraphs", [pkg[0]], pkg, r.dist, r.version, r.arch];
    JoinSix("callgraphs", [pkg[0]], pkg, r.dist, r.version, r.arch);
    assert "callgraphs/" == "callgraphs" + "/";
    assert Join(parts, "/") == CgDst(r, pkg);
    assert pkg[0] in pkg;
    assert forall i :: 0 <= i < |parts| ==> '/' !in parts[i];
    SplitJoin(parts, '/');
  }

  /** The sources of `pkg` sit in the bucket of its first letter; the release's
      own `dst` is that of its source package. */
  lemma SourcesDstFields(r: Release, pkg: string)
    requires pkg != "" && '/' !in pkg && FieldsFree(r, '/')
    ensures Split(SourcesDst(r, pkg), "/") == ["sources", [pkg[0]], pkg, r.version]
    ensures r.source != "" ==> Dst(r) == SourcesDst(r, r.source)
  {
    var parts := ["sources", [pkg[0]], pkg, r.version];
    JoinFour("sources", [pkg[0]], pkg, r.version);
    assert "sources/" == "sources" + "/";
    assert Join(parts, "/") == SourcesDst(r, pkg);
    assert pkg[0] in pkg;
    assert forall i :: 0 <= i < |parts| ==> '/' !in parts[i];
    SplitJoin(parts, '/');
  }

  /** `source_dir` is the absolute directory sources/dist/letter/source/version. */
  lemma SourceDirFields(r: SourceRelease)
    requires FieldsFree(r, '/')
    ensures Split(SourceDir(r), "/") == ["", "sources", r.dist, [r.source[0]], r.source, r.version]
  {
    var parts := ["", "sources", r.dist, [r.source[0]], r.source, r.version];
    JoinSix("", "sources", r.dist, [r.source[0]], r.source, r.version);
    assert "/sources/" == "" + "/" + "sources" + "/";
    assert Join(parts, "/") == SourceDir(r);
    assert r.source[0] in r.source;
    assert forall i :: 0 <= i < |parts| ==> '/' !in parts[i];
    SplitJoin(parts, '/');
  }

  /** The `error` dictionary: the key `type` is absent until a non-fatal
      failure sets it. */
  datatype ErrorMsg = ErrorMsg(phase: string, message: string, crashed: bool, errType: Option<string>)

  const NoError := ErrorMsg("", "", false, None)

  /** The state of one package while it is processed. */
  class PackageState {
    const release: SourceRelease
    const oldCwd: string
    /** `profiling_data['times']` */
    var times: map<string, string>
    var binaryPkgs: seq<string>
    var errorMsg: ErrorMsg
    var status: string

    constructor (release: SourceRelease, cwd: string)
      ensures this.release == release && oldCwd == cwd
      ensures times == map[] && binaryPkgs == [] && errorMsg == NoError && status == ""
    {
      this.release := release;
      oldCwd := cwd;
      times := map[];
      binaryPkgs := [];
      errorMsg := NoError;
      status := "";
    }
  }
}
