/** The rewriting of a decoded machine config before it is applied: the install disk and
    the certificate SANs, injected in place into every document of the stream. */
module MachineConfig {
  import opened Common

  /** A decoded YAML value. Scalar stands for numbers, booleans and timestamps. */
  datatype Value =
    | Str(s: string)
    | Scalar(repr: string)
    | Items(items: seq<Value>)
    | Fields(fields: map<string, Value>)
    | Null

  type Doc = map<string, Value>

  /** The map under this key, when there is one. */
  function Section(m: Doc, key: string): Option<Doc> {
    if key in m && m[key].Fields? then Some(m[key].fields) else None
  }

  function SectionOrEmpty(m: Doc, key: string): Doc {
    var s := Section(m, key);
    if s.Some? then s.value else map[]
  }

  function ListOrEmpty(m: Doc, key: string): seq<Value> {
    if key in m && m[key].Items? then m[key].items else []
  }

  // ---------- What each pass does to one document ----------

  predicate DiskChosen(install: Doc) {
    "disk" in install || "diskSelector" in install
  }

  function InstallOn(install: Doc, disk: string): Doc {
    if DiskChosen(install) then install else install["disk" := Str(disk)]
  }

  function WithInstallDisk(doc: Doc, disk: string): Doc {
    match Section(doc, "machine")
    case None => doc
    case Some(machine) =>
      doc["machine" := Fields(machine["install" := Fields(InstallOn(SectionOrEmpty(machine, "install"), disk))])]
  }

  function AddSAN(section: Doc, ip: string): Doc {
    var sans := ListOrEmpty(section, "certSANs");
    if Str(ip) in sans then section else section["certSANs" := Items(sans + [Str(ip)])]
  }

  function WithCertSAN(doc: Doc, ip: string): Doc {
    match Section(doc, "machine")
    case None => doc
    case Some(machine) => doc["machine" := Fields(AddSAN(machine, ip))]
  }

  function WithServerSAN(doc: Doc, ip: string): Doc {
    match Section(doc, "cluster")
    case None => doc
    case Some(cluster) =>
      doc["cluster" := Fields(cluster["apiServer" := Fields(AddSAN(SectionOrEmpty(cluster, "apiServer"), ip))])]
  }

  function WithCertSANs(doc: Doc, ips: seq<string>): Doc {
    if ips == [] then doc else WithCertSAN(WithCertSANs(doc, ips[..|ips| - 1]), Last(ips))
  }

  function WithServerSANs(doc: Doc, ips: seq<string>): Doc {
    if ips == [] then doc else WithServerSAN(WithServerSANs(doc, ips[..|ips| - 1]), Last(ips))
  }

  // ---------- The passes, in place ----------

  /** containsStringAny */
  method ContainsString(values: seq<Value>, s: string) returns (found: bool)
    ensures found <==> Str(s) in values
  {
    var i := 0;
    while i < |values|
      invariant 0 <= i <= |values|
      invariant Str(s) !in values[..i]
    {
      if values[i].Str? && values[i].s == s {
        return true;
      }
      i := i + 1;
    }
    return false;
  }

  method SetInstallDisk(docs: array<Doc>, disk: string)
    modifies docs
    ensures forall i :: 0 <= i < docs.Length ==> docs[i] == WithInstallDisk(old(docs[i]), disk)
  {
    var i := 0;
    while i < docs.Length
      invariant 0 <= i <= docs.Length
      invariant forall j :: 0 <= j < i ==> docs[j] == WithInstallDisk(old(docs[j]), disk)
      invariant forall j :: i <= j < docs.Length ==> docs[j] == old(docs[j])
    {
      var doc := docs[i];
      if "machine" in doc && doc["machine"].Fields? {
        var machine := doc["machine"].fields;
        var install: Doc := map[];
        if "install" in machine && machine["install"].Fields? {
          install := machine["install"].fields;
        }
        if "disk" !in install {
          if "diskSelector" !in install {
            install := install["disk" := Str(disk)];
          }
        }
        machine := machine["install" := Fields(install)];
        docs[i] := doc["machine" := Fields(machine)];
      }
      i := i + 1;
    }
  }

  method SetCertSANs(docs: array<Doc>, ip: string)
    modifies docs
    ensures forall i :: 0 <= i < docs.Length ==> docs[i] == WithCertSAN(old(docs[i]), ip)
  {
    var i := 0;
    while i < docs.Length
      invariant 0 <= i <= docs.Length
      invariant forall j :: 0 <= j < i ==> docs[j] == WithCertSAN(old(docs[j]), ip)
      invariant forall j :: i <= j < docs.Length ==> docs[j] == old(docs[j])
    {
      var doc := docs[i];
      if "machine" in doc && doc["machine"].Fields? {
        var machine := doc["machine"].fields;
        var sans: seq<Value> := [];
        if "certSANs" in machine && machine["certSANs"].Items? {
          sans := machine["certSANs"].items;
        }
        var found := ContainsString(sans, ip);
        if !found {
          machine := machine["certSANs" := Items(sans + [Str(ip)])];
          docs[i] := doc["machine" := Fields(machine)];
        } else {
          assert doc["machine" := doc["machine"]] == doc;
        }
      }
      i := i + 1;
    }
  }

  method SetServerSANs(docs: array<Doc>, ip: string)
    modifies docs
    ensures forall i :: 0 <= i < docs.Length ==> docs[i] == WithServerSAN(old(docs[i]), ip)
  {
    var i := 0;
    while i < docs.Length
      invariant 0 <= i <= docs.Length
      invariant forall j :: 0 <= j < i ==> docs[j] == WithServerSAN(old(docs[j]), ip)
      invariant forall j :: i <= j < docs.Length ==> docs[j] == old(docs[j])
    {
      var doc := docs[i];
      if "cluster" in doc && doc["cluster"].Fields? {
        var cluster := doc["cluster"].fields;
        var server: Doc := map[];
        if "apiServer" in cluster && cluster["apiServer"].Fields? {
          server := cluster["apiServer"].fields;
        }
        var sans: seq<Value> := [];
        if "certSANs" in server && server["certSANs"].Items? {
          sans := server["certSANs"].items;
        }
        var found := ContainsString(sans, ip);
        if !found {
          server := server["certSANs" := Items(sans + [Str(ip)])];
          cluster := cluster["apiServer" := Fields(server)];
          docs[i] := doc["cluster" := Fields(cluster)];
        } else {
          assert cluster["apiServer" := cluster["apiServer"]] == cluster;
          assert doc["cluster" := doc["cluster"]] == doc;
        }
      }
      i := i + 1;
    }
  }

  /** injectCertSANs */
  method InjectCertSANs(docs: array<Doc>, ips: seq<string>)
    modifies docs
    ensures forall i :: 0 <= i < docs.Length ==> docs[i] == WithCertSANs(old(docs[i]), ips)
  {
    var k := 0;
    while k < |ips|
      invariant 0 <= k <= |ips|
      invariant forall i :: 0 <= i < docs.Length ==> docs[i] == WithCertSANs(old(docs[i]), ips[..k])
    {
      SetCertSANs(docs, ips[k]);
      k := k + 1;
      assert ips[..k][..|ips[..k]| - 1] == ips[..k - 1];
    }
    assert ips[..k] == ips;
  }

  /** injectClusterAPIServerCertSANs */
  method InjectServerSANs(docs: array<Doc>, ips: seq<string>)
    modifies docs
    ensures forall i :: 0 <= i < docs.Length ==> docs[i] == WithServerSANs(old(docs[i]), ips)
  {
    var k := 0;
    while k < |ips|
      invariant 0 <= k <= |ips|
      invariant forall i :: 0 <= i < docs.Length ==> docs[i] == WithServerSANs(old(docs[i]), ips[..k])
    {
      SetServerSANs(docs, ips[k]);
      k := k + 1;
      assert ips[..k][..|ips[..k]| - 1] == ips[..k - 1];
    }
    assert ips[..k] == ips;
  }

  /** What applyAndMarkAdopted does to the config before the apply: disk is empty when none
      was given or detected. */
  function Prepared(doc: Doc, disk: string, ips: seq<string>): Doc {
    WithServerSANs(WithCertSANs(if disk == "" then doc else WithInstallDisk(doc, disk), ips), ips)
  }

  method Prepare(docs: array<Doc>, disk: string, ips: seq<string>)
    modifies docs
    ensures forall i :: 0 <= i < docs.Length ==> docs[i] == Prepared(old(docs[i]), disk, ips)
  {
    if disk != "" {
      SetInstallDisk(docs, disk);
    }
    InjectCertSANs(docs, ips);
    InjectServerSANs(docs, ips);
  }

  // ---------- What they leave alone ----------

  /** The value at the end of a path of keys. */
  function Lookup(doc: Doc, path: seq<string>): Option<Value>
    decreases |path|
  {
    if path == [] then Some(Fields(doc))
    else if path[0] !in doc then None
    else if |path| == 1 then Some(doc[path[0]])
    else if doc[path[0]].Fields? then Lookup(doc[path[0]].fields, path[1..])
    else None
  }

  /** Neither path leads through the other. */
  predicate Apart(path: seq<string>, target: seq<string>) {
    !(path <= target) && !(target <= path)
  }

  const DISK_PATH: seq<string> := ["machine", "install", "disk"]
  const CERT_PATH: seq<string> := ["machine", "certSANs"]
  const SERVER_PATH: seq<string> := ["cluster", "apiServer", "certSANs"]

  lemma Cons(path: seq<string>, key: string, rest: seq<string>)
    requires path != [] && path[0] == key
    ensures path <= [key] + rest <==> path[1..] <= rest
    ensures [key] + rest <= path <==> rest <= path[1..]
  {
    assert path == [key] + path[1..];
    if path[1..] <= rest {
      assert rest[..|path| - 1] == path[1..];
      assert ([key] + rest)[..|path|] == path;
    }
    if path <= [key] + rest {
      assert ([key] + rest)[1..|path|] == path[1..];
    }
    if rest <= path[1..] {
      assert path[..|rest| + 1] == [key] + rest;
    }
    if [key] + rest <= path {
      assert path[1..|rest| + 1] == rest;
    }
  }

  /** Replacing the map under a key changes nothing that lies apart from a path, when the
      replacement changes nothing apart from the rest of that path. */
  lemma Under(doc: Doc, key: string, inner: Doc, path: seq<string>, rest: seq<string>)
    requires Apart(path, [key] + rest)
    requires path != [] && path[0] == key && |path| > 1 ==>
               Apart(path[1..], rest) && Lookup(inner, path[1..]) == Lookup(SectionOrEmpty(doc, key), path[1..])
    ensures Lookup(doc[key := Fields(inner)], path) == Lookup(doc, path)
  {
    Heads(path, key, rest);
    if path[0] == key {
      Below(doc, key, path);
    }
  }

  lemma Heads(path: seq<string>, key: string, rest: seq<string>)
    requires !(path <= [key] + rest)
    ensures path != [] && path != [key]
  {
    assert ([key] + rest)[..1] == [key];
  }

  lemma Below(doc: Doc, key: string, path: seq<string>)
    requires |path| > 1 && path[0] == key
    ensures Lookup(SectionOrEmpty(doc, key), path[1..]) == Lookup(doc, path) || Section(doc, key).None?
    ensures Section(doc, key).None? ==> Lookup(doc, path).None? && Lookup(SectionOrEmpty(doc, key), path[1..]).None?
  {
  }

  lemma Inside(path: seq<string>, key: string, rest: seq<string>)
    requires Apart(path, [key] + rest) && path != [] && path[0] == key
    ensures Apart(path[1..], rest)
  {
    Cons(path, key, rest);
  }

  lemma SetLeaf(doc: Doc, key: string, v: Value, path: seq<string>)
    requires Apart(path, [key])
    ensures Lookup(doc[key := v], path) == Lookup(doc, path)
  {
    Leaf(path, key);
  }

  lemma Leaf(path: seq<string>, key: string)
    requires !([key] <= path)
    ensures path == [] || path[0] != key
  {
  }

  lemma InstallDiskLeaves(doc: Doc, disk: string, path: seq<string>)
    requires Apart(path, DISK_PATH)
    ensures Lookup(WithInstallDisk(doc, disk), path) == Lookup(doc, path)
  {
    var machine := SectionOrEmpty(doc, "machine");
    var install := SectionOrEmpty(machine, "install");
    var rest := ["install", "disk"];
    assert DISK_PATH == ["machine"] + rest && rest == ["install"] + ["disk"];
    if |path| > 1 && path[0] == "machine" {
      Inside(path, "machine", rest);
      if |path| > 2 && path[1] == "install" {
        Inside(path[1..], "install", ["disk"]);
        SetLeaf(install, "disk", Str(disk), path[1..][1..]);
      }
      Under(machine, "install", InstallOn(install, disk), path[1..], ["disk"]);
    }
    if Section(doc, "machine").Some? {
      Under(doc, "machine", machine["install" := Fields(InstallOn(install, disk))], path, rest);
    }
  }

  lemma AddSANLeaves(section: Doc, ip: string, path: seq<string>)
    requires Apart(path, ["certSANs"])
    ensures Lookup(AddSAN(section, ip), path) == Lookup(section, path)
  {
    SetLeaf(section, "certSANs", Items(ListOrEmpty(section, "certSANs") + [Str(ip)]), path);
  }

  lemma CertSANLeaves(doc: Doc, ip: string, path: seq<string>)
    requires Apart(path, CERT_PATH)
    ensures Lookup(WithCertSAN(doc, ip), path) == Lookup(doc, path)
  {
    var machine := SectionOrEmpty(doc, "machine");
    assert CERT_PATH == ["machine"] + ["certSANs"];
    if |path| > 1 && path[0] == "machine" {
      Inside(path, "machine", ["certSANs"]);
      AddSANLeaves(machine, ip, path[1..]);
    }
    if Section(doc, "machine").Some? {
      Under(doc, "machine", AddSAN(machine, ip), path, ["certSANs"]);
    }
  }

  lemma ServerSANLeaves(doc: Doc, ip: string, path: seq<string>)
    requires Apart(path, SERVER_PATH)
    ensures Lookup(WithServerSAN(doc, ip), path) == Lookup(doc, path)
  {
    var cluster := SectionOrEmpty(doc, "cluster");
    var server := SectionOrEmpty(cluster, "apiServer");
    var rest := ["apiServer", "certSANs"];
    assert SERVER_PATH == ["cluster"] + rest && rest == ["apiServer"] + ["certSANs"];
    if |path| > 1 && path[0] == "cluster" {
      Inside(path, "cluster", rest);
      if |path| > 2 && path[1] == "apiServer" {
        Inside(path[1..], "apiServer", ["certSANs"]);
        AddSANLeaves(server, ip, path[1..][1..]);
      }
      Under(cluster, "apiServer", AddSAN(server, ip), path[1..], ["certSANs"]);
    }
    if Section(doc, "cluster").Some? {
      Under(doc, "cluster", cluster["apiServer" := Fields(AddSAN(server, ip))], path, rest);
    }
  }

  lemma {:induction false} SANsLeave(doc: Doc, ips: seq<string>, path: seq<string>)
    ensures Apart(path, CERT_PATH) ==> Lookup(WithCertSANs(doc, ips), path) == Lookup(doc, path)
    ensures Apart(path, SERVER_PATH) ==> Lookup(WithServerSANs(doc, ips), path) == Lookup(doc, path)
  {
    hide Apart, Lookup, WithCertSAN, WithServerSAN;
    if ips != [] {
      var before := ips[..|ips| - 1];
      SANsLeave(doc, before, path);
      if Apart(path, CERT_PATH) {
        CertSANLeaves(WithCertSANs(doc, before), Last(ips), path);
      }
      if Apart(path, SERVER_PATH) {
        ServerSANLeaves(WithServerSANs(doc, before), Last(ips), path);
      }
    }
  }

  /** The preparation of a config changes nothing but the install disk and the two SAN
      lists. */
  lemma {:induction false} PreparationLeavesTheRest(doc: Doc, disk: string, ips: seq<string>, path: seq<string>)
    requires Apart(path, DISK_PATH) && Apart(path, CERT_PATH) && Apart(path, SERVER_PATH)
    ensures Lookup(Prepared(doc, disk, ips), path) == Lookup(doc, path)
  {
    hide Apart, Lookup, WithInstallDisk, WithCertSANs, WithServerSANs;
    var first := if disk == "" then doc else WithInstallDisk(doc, disk);
    InstallDiskLeaves(doc, disk, path);
    SANsLeave(first, ips, path);
    SANsLeave(WithCertSANs(first, ips), ips, path);
  }

  lemma {:induction false} DiskWins(doc: Doc, disk: string)
    ensures var chosen := Lookup(doc, ["machine", "install", "disk"]);
            var selector := Lookup(doc, ["machine", "install", "diskSelector"]);
            var after := WithInstallDisk(doc, disk);
            Lookup(after, ["machine", "install", "disk"]) ==
            if Section(doc, "machine").None? then chosen
            else if chosen.Some? then chosen
            else if selector.Some? then None
            else Some(Str(disk))
  {
    var path := ["machine", "install", "disk"];
    assert path[1..] == ["install", "disk"] && path[1..][1..] == ["disk"];
    var other := ["machine", "install", "diskSelector"];
    assert other[1..] == ["install", "diskSelector"] && other[1..][1..] == ["diskSelector"];
  }

  /** An operator's disk or diskSelector wins; otherwise the given disk is chosen, if one is. */
  lemma {:induction false} OperatorDiskWins(doc: Doc, disk: string, ips: seq<string>)
    ensures var chosen := Lookup(doc, ["machine", "install", "disk"]);
            var selector := Lookup(doc, ["machine", "install", "diskSelector"]);
            Lookup(Prepared(doc, disk, ips), ["machine", "install", "disk"]) ==
            if Section(doc, "machine").None? || disk == "" || chosen.Some? then chosen
            else if selector.Some? then None
            else Some(Str(disk))
  {
    hide WithInstallDisk, WithCertSANs, WithServerSANs, Lookup;
    var first := if disk == "" then doc else WithInstallDisk(doc, disk);
    DiskWins(doc, disk);
    assert DISK_PATH[1] != CERT_PATH[1] && DISK_PATH[0] != SERVER_PATH[0];
    SANsLeave(first, ips, DISK_PATH);
    SANsLeave(WithCertSANs(first, ips), ips, DISK_PATH);
  }

  // ---------- What they add ----------

  /** a comes among the endpoints, and before any b. */
  predicate Earlier(ips: seq<string>, a: Value, b: Value) {
    exists i :: 0 <= i < |ips| && Str(ips[i]) == a && forall j :: 0 <= j <= i ==> Str(ips[j]) != b
  }

  /** after is before with each missing endpoint appended, once and in the order of the endpoints. */
  predicate AddsOnce(before: seq<Value>, after: seq<Value>, ips: seq<string>) {
    && before <= after
    && (forall k :: |before| <= k < |after| ==> after[k].Str? && after[k].s in ips && after[k] !in after[..k])
    && (forall k, l :: |before| <= k < l < |after| ==> Earlier(ips, after[k], after[l]))
    && (forall ip :: ip in ips ==> Str(ip) in after)
  }

  function CertSANs(doc: Doc): seq<Value> {
    ListOrEmpty(SectionOrEmpty(doc, "machine"), "certSANs")
  }

  function ServerSANs(doc: Doc): seq<Value> {
    ListOrEmpty(SectionOrEmpty(SectionOrEmpty(doc, "cluster"), "apiServer"), "certSANs")
  }

  function AddOnce(sans: seq<Value>, ip: string): seq<Value> {
    if Str(ip) in sans then sans else sans + [Str(ip)]
  }

  lemma StillEarlier(after: seq<Value>, ips: seq<string>, ip: string, a: Value, b: Value)
    requires forall x :: x in ips ==> Str(x) in after
    requires Earlier(ips, a, b) || (a.Str? && a.s in ips && b == Str(ip) && b !in after)
    ensures Earlier(ips + [ip], a, b)
  {
    var all := ips + [ip];
    var i :| 0 <= i < |ips| && Str(ips[i]) == a && (Earlier(ips, a, b) ==> forall j :: 0 <= j <= i ==> Str(ips[j]) != b);
    assert all[i] == ips[i];
    forall j | 0 <= j <= i
      ensures Str(all[j]) != b
    {
      assert all[j] == ips[j] && ips[j] in ips;
    }
  }

  lemma OneMore(before: seq<Value>, after: seq<Value>, ips: seq<string>, ip: string)
    requires AddsOnce(before, after, ips)
    ensures AddsOnce(before, AddOnce(after, ip), ips + [ip])
  {
    var more := AddOnce(after, ip);
    forall k | |before| <= k < |more|
      ensures more[k].Str? && more[k].s in ips + [ip] && more[k] !in more[..k]
    {
      if k < |after| {
        assert more[..k] == after[..k] && after[k].s in ips;
      } else {
        assert more[..k] == after && more[k] == Str(ip) && (ips + [ip])[|ips|] == ip;
      }
    }
    forall k, l | |before| <= k < l < |more|
      ensures Earlier(ips + [ip], more[k], more[l])
    {
      StillEarlier(after, ips, ip, more[k], more[l]);
    }
    forall x | x in ips + [ip]
      ensures Str(x) in more
    {
      if x == ip {
        assert Str(ip) in after || more[|after|] == Str(ip);
      } else {
        assert x in ips && Str(x) in after;
      }
    }
  }

  lemma SANsOfOne(doc: Doc, ip: string)
    ensures Section(doc, "machine").Some? ==> CertSANs(WithCertSAN(doc, ip)) == AddOnce(CertSANs(doc), ip)
    ensures Section(doc, "cluster").Some? ==> ServerSANs(WithServerSAN(doc, ip)) == AddOnce(ServerSANs(doc), ip)
    ensures Section(WithCertSAN(doc, ip), "machine").Some? == Section(doc, "machine").Some?
    ensures Section(WithServerSAN(doc, ip), "cluster").Some? == Section(doc, "cluster").Some?
  {
  }

  /** Existing SANs stay, in their order and in front; every endpoint is in the list of every
      document that has the section, and none is added twice. */
  lemma {:induction false} SANsAreAddedOnce(doc: Doc, ips: seq<string>)
    ensures Section(doc, "machine").Some? ==> AddsOnce(CertSANs(doc), CertSANs(WithCertSANs(doc, ips)), ips)
    ensures Section(doc, "cluster").Some? ==> AddsOnce(ServerSANs(doc), ServerSANs(WithServerSANs(doc, ips)), ips)
    ensures Section(WithCertSANs(doc, ips), "machine").Some? == Section(doc, "machine").Some?
    ensures Section(WithServerSANs(doc, ips), "cluster").Some? == Section(doc, "cluster").Some?
  {
    hide AddsOnce, Section, CertSANs, ServerSANs, WithCertSAN, WithServerSAN;
    if ips == [] {
      NothingAdded(CertSANs(doc));
      NothingAdded(ServerSANs(doc));
    } else {
      var before := ips[..|ips| - 1];
      SANsAreAddedOnce(doc, before);
      SANsOfOne(WithCertSANs(doc, before), Last(ips));
      SANsOfOne(WithServerSANs(doc, before), Last(ips));
      assert ips == before + [Last(ips)];
      if Section(doc, "machine").Some? {
        OneMore(CertSANs(doc), CertSANs(WithCertSANs(doc, before)), before, Last(ips));
      }
      if Section(doc, "cluster").Some? {
        OneMore(ServerSANs(doc), ServerSANs(WithServerSANs(doc, before)), before, Last(ips));
      }
    }
  }

  lemma NothingAdded(sans: seq<Value>)
    ensures AddsOnce(sans, sans, [])
  {
  }

  // ---------- Doing it again, and in another order ----------

  lemma SameSection(doc: Doc, key: string)
    requires Section(doc, key).Some?
    ensures doc[key := Fields(SectionOrEmpty(doc, key))] == doc
  {
  }

  lemma {:induction false} NothingMissing(doc: Doc, ips: seq<string>)
    ensures (forall ip :: ip in ips ==> Str(ip) in CertSANs(doc)) ==> WithCertSANs(doc, ips) == doc
    ensures (forall ip :: ip in ips ==> Str(ip) in ServerSANs(doc)) ==> WithServerSANs(doc, ips) == doc
  {
    if ips != [] {
      NothingMissing(doc, ips[..|ips| - 1]);
      NothingMissingOne(doc, Last(ips));
      assert forall ip :: ip in ips[..|ips| - 1] ==> ip in ips;
    }
  }

  lemma NothingMissingOne(doc: Doc, ip: string)
    ensures Str(ip) in CertSANs(doc) ==> WithCertSAN(doc, ip) == doc
    ensures Str(ip) in ServerSANs(doc) ==> WithServerSAN(doc, ip) == doc
  {
    if Section(doc, "machine").Some? {
      SameSection(doc, "machine");
    }
    if Section(doc, "cluster").Some? {
      SameSection(doc, "cluster");
      var cluster := SectionOrEmpty(doc, "cluster");
      if Section(cluster, "apiServer").Some? {
        SameSection(cluster, "apiServer");
      }
    }
  }

  lemma {:induction false} NoSection(doc: Doc, ips: seq<string>)
    ensures Section(doc, "machine").None? ==> WithCertSANs(doc, ips) == doc
    ensures Section(doc, "cluster").None? ==> WithServerSANs(doc, ips) == doc
  {
    if ips != [] {
      NoSection(doc, ips[..|ips| - 1]);
    }
  }

  lemma SANsTwice(doc: Doc, ips: seq<string>)
    ensures WithCertSANs(WithCertSANs(doc, ips), ips) == WithCertSANs(doc, ips)
    ensures WithServerSANs(WithServerSANs(doc, ips), ips) == WithServerSANs(doc, ips)
  {
    hide WithCertSANs, WithServerSANs, Section, CertSANs, ServerSANs;
    SANsAreAddedOnce(doc, ips);
    NoSection(doc, ips);
    NoSection(WithCertSANs(doc, ips), ips);
    NoSection(WithServerSANs(doc, ips), ips);
    NothingMissing(WithCertSANs(doc, ips), ips);
    NothingMissing(WithServerSANs(doc, ips), ips);
  }

  lemma DiskTwice(doc: Doc, disk: string, disk': string)
    ensures WithInstallDisk(WithInstallDisk(doc, disk), disk') == WithInstallDisk(doc, disk)
  {
    if Section(doc, "machine").Some? {
      var machine := SectionOrEmpty(doc, "machine");
      var install := InstallOn(SectionOrEmpty(machine, "install"), disk);
      var machine' := machine["install" := Fields(install)];
      assert machine'["install" := Fields(install)] == machine';
      var doc' := doc["machine" := Fields(machine')];
      assert doc'["machine" := Fields(machine')] == doc';
    }
  }

  lemma DiskCertCommute(doc: Doc, disk: string, ip: string)
    ensures WithCertSAN(WithInstallDisk(doc, disk), ip) == WithInstallDisk(WithCertSAN(doc, ip), disk)
  {
    if Section(doc, "machine").Some? {
      var machine := SectionOrEmpty(doc, "machine");
      var install := Fields(InstallOn(SectionOrEmpty(machine, "install"), disk));
      assert AddSAN(machine["install" := install], ip) == AddSAN(machine, ip)["install" := install];
      var both := Fields(AddSAN(machine, ip)["install" := install]);
      assert doc["machine" := Fields(machine["install" := install])]["machine" := both] == doc["machine" := both];
      assert doc["machine" := Fields(AddSAN(machine, ip))]["machine" := both] == doc["machine" := both];
    }
  }

  lemma DiskServerCommute(doc: Doc, disk: string, ip: string)
    ensures WithServerSAN(WithInstallDisk(doc, disk), ip) == WithInstallDisk(WithServerSAN(doc, ip), disk)
  {
  }

  lemma CertServerCommute(doc: Doc, ip: string, x: string)
    ensures WithServerSAN(WithCertSAN(doc, ip), x) == WithCertSAN(WithServerSAN(doc, x), ip)
  {
  }

  lemma {:induction false} PassesCommute(doc: Doc, disk: string, ips: seq<string>, xs: seq<string>)
    ensures WithCertSANs(WithInstallDisk(doc, disk), ips) == WithInstallDisk(WithCertSANs(doc, ips), disk)
    ensures WithServerSANs(WithInstallDisk(doc, disk), xs) == WithInstallDisk(WithServerSANs(doc, xs), disk)
    ensures WithServerSANs(WithCertSANs(doc, ips), xs) == WithCertSANs(WithServerSANs(doc, xs), ips)
    decreases |ips| + |xs|
  {
    hide WithInstallDisk, WithCertSAN, WithServerSAN;
    if ips != [] {
      var before := ips[..|ips| - 1];
      PassesCommute(doc, disk, before, xs);
      DiskCertCommute(WithCertSANs(doc, before), disk, Last(ips));
      CertThroughServers(WithCertSANs(doc, before), Last(ips), xs);
    } else if xs != [] {
      var before := xs[..|xs| - 1];
      PassesCommute(doc, disk, ips, before);
      DiskServerCommute(WithServerSANs(doc, before), disk, Last(xs));
    }
  }

  lemma {:induction false} CertThroughServers(doc: Doc, ip: string, xs: seq<string>)
    ensures WithServerSANs(WithCertSAN(doc, ip), xs) == WithCertSAN(WithServerSANs(doc, xs), ip)
  {
    hide WithCertSAN, WithServerSAN;
    if xs != [] {
      CertThroughServers(doc, ip, xs[..|xs| - 1]);
      CertServerCommute(WithServerSANs(doc, xs[..|xs| - 1]), ip, Last(xs));
    }
  }

  /** A document that names no disk to install on. */
  predicate LacksDisk(doc: Doc) {
    Section(doc, "machine").Some? && !DiskChosen(SectionOrEmpty(Section(doc, "machine").value, "install"))
  }

  lemma InstallDiskOnce(doc: Doc, disk: string)
    ensures !LacksDisk(WithInstallDisk(doc, disk))
    ensures !LacksDisk(doc) ==> WithInstallDisk(doc, disk) == doc
  {
    if Section(doc, "machine").Some? && !LacksDisk(doc) {
      var machine := Section(doc, "machine").value;
      assert machine["install" := machine["install"]] == machine;
      assert doc["machine" := doc["machine"]] == doc;
    }
  }

  lemma {:induction false} SANsKeepDisk(doc: Doc, ips: seq<string>)
    ensures LacksDisk(WithCertSANs(doc, ips)) == LacksDisk(doc) && LacksDisk(WithServerSANs(doc, ips)) == LacksDisk(doc)
  {
    if ips != [] {
      SANsKeepDisk(doc, ips[..|ips| - 1]);
    }
  }

  lemma PreparedTwice(doc: Doc, disk: string, disk': string, ips: seq<string>)
    requires disk != "" || disk' == ""
    ensures Prepared(Prepared(doc, disk, ips), disk', ips) == Prepared(doc, disk, ips)
  {
    hide WithInstallDisk, WithCertSANs, WithServerSANs;
    var first := if disk == "" then doc else WithInstallDisk(doc, disk);
    var certs := WithCertSANs(first, ips);
    if disk' != "" {
      PassesCommute(certs, disk', ips, ips);
      PassesCommute(first, disk', ips, ips);
      DiskTwice(doc, disk, disk');
    }
    PassesCommute(certs, "", ips, ips);
    SANsTwice(first, ips);
    SANsTwice(certs, ips);
  }

  /** Preparing a prepared config changes nothing, but for one case: a disk that is detected
      only the second time, for a document that names none. */
  lemma {:induction false} PreparationIsIdempotent(doc: Doc, disk: string, disk': string, ips: seq<string>)
    ensures Prepared(Prepared(doc, disk, ips), disk', ips) == Prepared(doc, disk, ips) <==>
            !(disk == "" && disk' != "" && LacksDisk(doc))
  {
    hide WithInstallDisk, WithCertSANs, WithServerSANs, LacksDisk;
    if disk != "" || disk' == "" {
      PreparedTwice(doc, disk, disk', ips);
    } else {
      var once := Prepared(doc, "", ips);
      SANsKeepDisk(doc, ips);
      SANsKeepDisk(WithCertSANs(doc, ips), ips);
      InstallDiskOnce(once, disk');
      SANsKeepDisk(WithInstallDisk(once, disk'), ips);
      SANsKeepDisk(WithCertSANs(WithInstallDisk(once, disk'), ips), ips);
      PreparedTwice(doc, "", "", ips);
    }
  }

  lemma DiskKeepsSANs(doc: Doc, disk: string)
    ensures Section(doc, "machine").None? ==> WithInstallDisk(doc, disk) == doc
    ensures Lookup(WithInstallDisk(doc, disk), ["cluster"]) == Lookup(doc, ["cluster"])
    ensures CertSANs(WithInstallDisk(doc, disk)) == CertSANs(doc) && ServerSANs(WithInstallDisk(doc, disk)) == ServerSANs(doc)
    ensures forall key :: Section(WithInstallDisk(doc, disk), key).Some? == Section(doc, key).Some?
  {
  }

  lemma {:induction false} PassesKeepSANs(doc: Doc, ips: seq<string>)
    ensures ServerSANs(WithCertSANs(doc, ips)) == ServerSANs(doc) && CertSANs(WithServerSANs(doc, ips)) == CertSANs(doc)
    ensures Section(WithCertSANs(doc, ips), "cluster") == Section(doc, "cluster")
  {
    if ips != [] {
      PassesKeepSANs(doc, ips[..|ips| - 1]);
    }
  }

  /** After the preparation, each document with a machine section covers every endpoint in
      its certificate SANs, and each with a cluster section in those of the API server: the
      operator's entries first, every missing endpoint added once and in order. A document without
      the section gets none. */
  lemma {:induction false} PreparedCoversEndpoints(doc: Doc, disk: string, ips: seq<string>)
    ensures var after := Prepared(doc, disk, ips);
            && (Section(doc, "machine").Some? ==> AddsOnce(CertSANs(doc), CertSANs(after), ips))
            && (Section(doc, "cluster").Some? ==> AddsOnce(ServerSANs(doc), ServerSANs(after), ips))
            && (Section(doc, "machine").None? ==> Lookup(after, ["machine"]) == Lookup(doc, ["machine"]))
            && (Section(doc, "cluster").None? ==> Lookup(after, ["cluster"]) == Lookup(doc, ["cluster"]))
  {
    hide WithInstallDisk, WithCertSANs, WithServerSANs, AddsOnce, Section, CertSANs, ServerSANs;
    var first := if disk == "" then doc else WithInstallDisk(doc, disk);
    DiskKeepsSANs(doc, disk);
    SANsAreAddedOnce(first, ips);
    PassesKeepSANs(first, ips);
    SANsAreAddedOnce(WithCertSANs(first, ips), ips);
    PassesKeepSANs(WithCertSANs(first, ips), ips);
    NoSection(first, ips);
    NoSection(WithCertSANs(first, ips), ips);
    KeysStay(first, ips);
    KeysStay(WithCertSANs(first, ips), ips);
  }

  lemma {:induction false} KeysStay(doc: Doc, ips: seq<string>)
    ensures Lookup(WithCertSANs(doc, ips), ["cluster"]) == Lookup(doc, ["cluster"])
    ensures Lookup(WithServerSANs(doc, ips), ["machine"]) == Lookup(doc, ["machine"])
  {
    if ips != [] {
      KeysStay(doc, ips[..|ips| - 1]);
    }
  }
}
