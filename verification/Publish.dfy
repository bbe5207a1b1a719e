/** Publication of a tree file by file, manifest last, under a crash between any two file
    operations. */
module Publish {
  import opened Json

  datatype Entry = Entry(path: string, kind: Value, sha: string, count: Option<int>)

  datatype Manifest = Manifest(runId: Value, files: map<string, Entry>, about: Record)

  /** The platform the publisher runs on: its JSON, its digest, and its schema checks. `holds` and
      `holdsManifest` say which documents its JSON can hold at all: its numbers are floats. */
  datatype Platform = Platform(
    holds: Record -> bool,
    holdsManifest: Manifest -> bool,
    dumps: (Record, bool) -> string,
    loads: string -> Option<Value>,
    dumpManifest: Manifest -> string,
    loadManifest: string -> Option<Manifest>,
    sha: string -> string,
    bundleOk: map<string, Record> -> bool,
    manifestOk: Manifest -> bool,
    healthOk: Record -> bool)

  /** JSON reads back what it can hold and printed, and digests of different texts differ. */
  ghost predicate Sound(p: Platform) {
    && (forall d, compact | p.holds(d) :: p.loads(p.dumps(d, compact)) == Some(Obj(d)))
    && (forall m | p.holdsManifest(m) :: p.loadManifest(p.dumpManifest(m)) == Some(m))
    && (forall a, b :: p.sha(a) == p.sha(b) ==> a == b)
  }

  type Disk = map<string, string>

  const MANIFEST := "manifest.json"
  const HEALTH := "health.json"

  predicate UnderExplorer(path: string) {
    |path| >= 9 && path[..9] == "explorer/"
  }

  predicate IsJson(path: string) {
    |path| >= 5 && path[|path| - 5..] == ".json"
  }

  function PathOf(name: string): string {
    name + ".json"
  }

  lemma PathsDiffer(a: string, b: string)
    ensures PathOf(a) == PathOf(b) ==> a == b
  {
    assert PathOf(a)[..|PathOf(a)| - 5] == a && PathOf(b)[..|PathOf(b)| - 5] == b;
  }

  // ------------------------------------------------------------- what is published

  /** A run's documents, in the order they were given. */
  datatype Bundle = Bundle(names: seq<string>, docs: map<string, Record>, compact: bool)

  ghost predicate WellNamed(b: Bundle) {
    && (forall i, j | 0 <= i < j < |b.names| :: b.names[i] != b.names[j])
    && (forall n :: n in b.names <==> n in b.docs)
    && "manifest" !in b.names && "health" !in b.names
  }

  function CountOf(doc: Record): Option<int> {
    if "items" in doc && doc["items"].List? then Some(|doc["items"].items|) else None
  }

  function BuildManifest(p: Platform, b: Bundle, runId: Value, about: Record): Manifest {
    Manifest(runId,
             map n | n in b.docs :: Entry(PathOf(n), Get(b.docs[n], "kind"), p.sha(p.dumps(b.docs[n], b.compact)), CountOf(b.docs[n])),
             about)
  }

  /** Everything this publication prints is something its JSON can hold. */
  ghost predicate Holdable(p: Platform, b: Bundle, m: Manifest, health: Option<Record>) {
    && (forall n | n in b.docs :: p.holds(b.docs[n]))
    && p.holdsManifest(m)
    && (health.Some? ==> p.holds(health.value))
  }

  /** Manifest and files say the same of every file: its run, kind, count and digest. */
  predicate ManifestAgrees(m: Manifest, docs: map<string, Record>, digests: map<string, string>) {
    && (forall n | n in m.files ::
          && n in docs
          && Equal(Get(docs[n], "run_id"), m.runId)
          && Equal(m.files[n].kind, Get(docs[n], "kind"))
          && ("items" in docs[n] ==> m.files[n].count == CountOf(docs[n]))
          && (n in digests && digests[n] != "" ==> m.files[n].sha == digests[n]))
    && (forall n | n in docs :: n in m.files || n == "manifest" || n == "health")
  }

  /** Nothing is inconsistent, so publication goes ahead. */
  predicate Publishable(p: Platform, b: Bundle, runId: Value, about: Record, health: Option<Record>) {
    && p.bundleOk(b.docs)
    && (forall n | n in b.docs :: Equal(Get(b.docs[n], "run_id"), runId))
    && p.manifestOk(BuildManifest(p, b, runId, about))
    && ManifestAgrees(BuildManifest(p, b, runId, about), b.docs, map n | n in b.docs :: p.sha(p.dumps(b.docs[n], b.compact)))
    && (health.Some? ==> p.healthOk(health.value))
  }

  /** The files one publication moves into place, in order: the manifest last. */
  function Writes(p: Platform, b: Bundle, m: Manifest, health: Option<Record>): seq<(string, string)>
    requires forall i | 0 <= i < |b.names| :: b.names[i] in b.docs
  {
    seq(|b.names|, i requires 0 <= i < |b.names| => (PathOf(b.names[i]), p.dumps(b.docs[b.names[i]], b.compact)))
    + (if health.Some? then [(HEALTH, p.dumps(health.value, false))] else [])
    + [(MANIFEST, p.dumpManifest(m))]
  }

  function Overwrite(disk: Disk, writes: seq<(string, string)>): Disk {
    if writes == [] then disk
    else Overwrite(disk, writes[..|writes| - 1])[writes[|writes| - 1].0 := writes[|writes| - 1].1]
  }

  /** What an earlier publication left that this one has no document for. `explorer/` is another
      publisher's. */
  function Stale(disk: Disk, writes: seq<(string, string)>): set<string> {
    set path | path in disk && IsJson(path) && !UnderExplorer(path) && (forall i | 0 <= i < |writes| :: writes[i].0 != path)
  }

  // ------------------------------------------------------------- the same, in the files' own terms

  /** Ends in, or lies under, this text. */
  ghost predicate EndsIn(path: string, suffix: string) {
    exists stem: string :: path == stem + suffix
  }

  ghost predicate Under(path: string, directory: string) {
    exists rest: string :: path == directory + rest
  }

  /** What is removed: JSON files that were there, that this publication does not write, and that
      are not under `explorer/`. */
  lemma StaleIff(disk: Disk, writes: seq<(string, string)>, path: string)
    ensures path in Stale(disk, writes) <==>
      && path in disk && EndsIn(path, ".json") && !Under(path, "explorer/")
      && forall i | 0 <= i < |writes| :: writes[i].0 != path
  {
    if IsJson(path) { assert path == path[..|path| - 5] + ".json"; }
    if EndsIn(path, ".json") {
      var stem: string :| path == stem + ".json";
      assert path[|stem|..] == ".json";
    }
    if UnderExplorer(path) { assert path == "explorer/" + path[9..]; }
    if Under(path, "explorer/") {
      var rest: string :| path == "explorer/" + rest;
      assert path[..9] == "explorer/";
    }
  }

  /** What is written, and in which order: every document, the health document if there is one, and
      the manifest. */
  lemma WritesAre(p: Platform, b: Bundle, m: Manifest, health: Option<Record>)
    requires WellNamed(b)
    ensures var writes, n := Writes(p, b, m, health), |b.names|;
      && |writes| == n + (if health.Some? then 2 else 1)
      && (forall i | 0 <= i < n :: writes[i] == (b.names[i] + ".json", p.dumps(b.docs[b.names[i]], b.compact)))
      && (health.Some? ==> writes[n] == ("health.json", p.dumps(health.value, false)))
      && writes[|writes| - 1] == ("manifest.json", p.dumpManifest(m))
  {
  }

  /** How many items a document lists, if it lists any. */
  ghost predicate Lists(doc: Record, count: Option<int>) {
    if exists items :: "items" in doc && doc["items"] == List(items) then count == Some(|doc["items"].items|) else count == None
  }

  /** The manifest that is built names every document and no other, each with its path, its kind,
      its number of items and the digest of its very text. */
  lemma BuiltManifestIs(p: Platform, b: Bundle, runId: Value, about: Record)
    ensures var m := BuildManifest(p, b, runId, about);
      && m.runId == runId && m.about == about && m.files.Keys == b.docs.Keys
      && forall n | n in b.docs ::
           && m.files[n].path == n + ".json" && m.files[n].kind == Get(b.docs[n], "kind")
           && m.files[n].sha == p.sha(p.dumps(b.docs[n], b.compact)) && Lists(b.docs[n], m.files[n].count)
  {
  }

  /** One entry of a manifest, against its document and that document's digest. */
  ghost predicate EntryHolds(m: Manifest, n: string, doc: Record, digest: Option<string>)
    requires n in m.files
  {
    && Coerced(Get(doc, "run_id")) == Coerced(m.runId)
    && Coerced(Get(doc, "kind")) == Coerced(m.files[n].kind)
    && ("items" in doc ==> Lists(doc, m.files[n].count))
    && (digest.None? || digest.value == "" || digest.value == m.files[n].sha)
  }

  lemma EntryIff(m: Manifest, docs: map<string, Record>, digests: map<string, string>, n: string)
    requires n in m.files && n in docs
    ensures EntryHolds(m, n, docs[n], if n in digests then Some(digests[n]) else None) <==>
      && Equal(Get(docs[n], "run_id"), m.runId)
      && Equal(m.files[n].kind, Get(docs[n], "kind"))
      && ("items" in docs[n] ==> m.files[n].count == CountOf(docs[n]))
      && (n in digests && digests[n] != "" ==> m.files[n].sha == digests[n])
  {
    EqualIffCoerced(Get(docs[n], "run_id"), m.runId);
    EqualIffCoerced(m.files[n].kind, Get(docs[n], "kind"));
  }

  /** What the check of a manifest against its files demands. */
  lemma AgreesIff(m: Manifest, docs: map<string, Record>, digests: map<string, string>)
    ensures ManifestAgrees(m, docs, digests) <==>
      && (forall n | n in m.files :: n in docs && EntryHolds(m, n, docs[n], if n in digests then Some(digests[n]) else None))
      && docs.Keys <= m.files.Keys + {"manifest", "health"}
  {
    forall n | n in m.files && n in docs
      ensures EntryHolds(m, n, docs[n], if n in digests then Some(digests[n]) else None) <==>
        && Equal(Get(docs[n], "run_id"), m.runId)
        && Equal(m.files[n].kind, Get(docs[n], "kind"))
        && ("items" in docs[n] ==> m.files[n].count == CountOf(docs[n]))
        && (n in digests && digests[n] != "" ==> m.files[n].sha == digests[n])
    {
      EntryIff(m, docs, digests, n);
    }
  }

  /** Publication goes ahead exactly when the documents pass as a bundle and all carry this run, and
      the manifest and the health document pass: the manifest it builds always agrees with them. */
  lemma PublishableIff(p: Platform, b: Bundle, runId: Value, about: Record, health: Option<Record>)
    ensures Publishable(p, b, runId, about, health) <==>
      && p.bundleOk(b.docs) && (forall n | n in b.docs :: Coerced(Get(b.docs[n], "run_id")) == Coerced(runId))
      && p.manifestOk(BuildManifest(p, b, runId, about)) && (health == None || p.healthOk(health.value))
  {
    var m := BuildManifest(p, b, runId, about);
    BuiltManifestIs(p, b, runId, about);
    AgreesIff(m, b.docs, map n | n in b.docs :: p.sha(p.dumps(b.docs[n], b.compact)));
    forall n | n in b.docs ensures Equal(Get(b.docs[n], "run_id"), runId) <==> Coerced(Get(b.docs[n], "run_id")) == Coerced(runId) {
      EqualIffCoerced(Get(b.docs[n], "run_id"), runId);
    }
  }

  /** The disk after `done` of the moves and the removal of `removed`. */
  function After(disk: Disk, writes: seq<(string, string)>, done: nat, removed: set<string>): Disk
    requires done <= |writes|
  {
    Overwrite(disk, writes[..done]) - removed
  }

  /** How far a publication can get: removals only start once every file has been moved. */
  ghost predicate Reached(disk: Disk, writes: seq<(string, string)>, done: nat, removed: set<string>) {
    && done <= |writes|
    && removed <= Stale(disk, writes)
    && (removed != {} ==> done == |writes|)
  }

  datatype Outcome = Refused | Crashed | Published(manifest: Manifest)

  class Root {
    var files: Disk

    constructor (files: Disk)
      ensures this.files == files
    {
      this.files := files;
    }

    /** Moves the files into place one by one, until the crash. */
    method MoveAll(writes: seq<(string, string)>, budget: nat) returns (done: nat)
      modifies this
      ensures done == if budget < |writes| then budget else |writes|
      ensures files == Overwrite(old(files), writes[..done])
    {
      done := 0;
      assert writes[..0] == [];
      while done < |writes| && done < budget
        invariant done <= |writes| && done <= budget && files == Overwrite(old(files), writes[..done])
      {
        assert writes[..done + 1][..done] == writes[..done];
        files := files[writes[done].0 := writes[done].1];
        done := done + 1;
      }
    }

    /** Unlinks the stale files one by one, until the crash. */
    method RemoveAll(stale: set<string>, budget: nat) returns (removed: set<string>)
      modifies this
      ensures removed <= stale && files == old(files) - removed
      ensures |removed| <= budget && (removed == stale || |removed| == budget)
    {
      removed := {};
      var left := stale;
      while left != {} && |removed| < budget
        invariant removed == stale - left && left <= stale && |removed| <= budget
        invariant files == old(files) - removed
        decreases |left|
      {
        var path :| path in left;
        assert old(files) - (removed + {path}) == files - {path};
        files := files - {path};
        left := left - {path};
        removed := removed + {path};
      }
    }

    /** Publishes, or stops after `budget` file operations as a crash would. `done` and `removed`
        say how far it got. */
    method Publish(p: Platform, b: Bundle, runId: Value, about: Record, health: Option<Record>, budget: nat)
      returns (outcome: Outcome, done: nat, removed: set<string>)
      requires WellNamed(b)
      modifies this
      ensures outcome == Refused <==> !Publishable(p, b, runId, about, health)
      ensures outcome == Refused ==> files == old(files) && done == 0 && removed == {}
      ensures var writes := Writes(p, b, BuildManifest(p, b, runId, about), health);
        outcome != Refused ==>
          && Reached(old(files), writes, done, removed)
          && files == After(old(files), writes, done, removed)
          && (outcome.Published? ==> done == |writes| && removed == Stale(old(files), writes))
      ensures outcome.Published? ==> outcome.manifest == BuildManifest(p, b, runId, about)
      ensures outcome == Crashed ==> done + |removed| == budget
      ensures outcome.Published? ==> done + |removed| <= budget
    {
      done, removed := 0, {};
      if !Publishable(p, b, runId, about, health) {
        return Refused, done, removed;
      }
      var m := BuildManifest(p, b, runId, about);
      var writes := Writes(p, b, m, health);
      var stale := Stale(files, writes);
      done := MoveAll(writes, budget);
      assert files - {} == files;
      if done < |writes| {
        return Crashed, done, removed;
      }
      removed := RemoveAll(stale, budget - done);
      outcome := if removed == stale then Published(m) else Crashed;
    }

    /** On a failed build only the health file is replaced. */
    method WriteHealthOnly(p: Platform, health: Record) returns (ok: bool)
      modifies this
      ensures ok == p.healthOk(health)
      ensures files == if ok then old(files)[HEALTH := p.dumps(health, false)] else old(files)
    {
      ok := p.healthOk(health);
      if ok {
        files := files[HEALTH := p.dumps(health, false)];
      }
    }
  }

  // ------------------------------------------------------------- what a reader can check

  /** The manifest a reader sees. */
  function Seen(p: Platform, disk: Disk): Option<Manifest> {
    if MANIFEST in disk then p.loadManifest(disk[MANIFEST]) else None
  }

  /** Every file a manifest names is there with the digest it gives. */
  predicate Matches(p: Platform, disk: Disk, m: Manifest) {
    forall n | n in m.files :: m.files[n].path in disk && p.sha(disk[m.files[n].path]) == m.files[n].sha
  }

  ghost predicate DistinctPaths(writes: seq<(string, string)>) {
    forall i, j | 0 <= i < j < |writes| :: writes[i].0 != writes[j].0
  }

  lemma {:induction false} OverwriteAt(disk: Disk, writes: seq<(string, string)>, path: string)
    requires DistinctPaths(writes)
    ensures forall i | 0 <= i < |writes| && writes[i].0 == path :: path in Overwrite(disk, writes) && Overwrite(disk, writes)[path] == writes[i].1
    ensures (forall i | 0 <= i < |writes| :: writes[i].0 != path) ==>
              (path in Overwrite(disk, writes) <==> path in disk) && (path in disk ==> Overwrite(disk, writes)[path] == disk[path])
  {
    if writes != [] {
      var n := |writes| - 1;
      assert forall i | 0 <= i < n :: writes[..n][i] == writes[i];
      OverwriteAt(disk, writes[..n], path);
    }
  }

  lemma WritesAreDistinct(p: Platform, b: Bundle, m: Manifest, health: Option<Record>)
    requires WellNamed(b)
    ensures DistinctPaths(Writes(p, b, m, health))
  {
    var writes := Writes(p, b, m, health);
    assert PathOf("manifest") == MANIFEST && PathOf("health") == HEALTH;
    forall i, j | 0 <= i < j < |writes| ensures writes[i].0 != writes[j].0 {
      if j < |b.names| {
        PathsDiffer(b.names[i], b.names[j]);
      } else if i < |b.names| {
        PathsDiffer(b.names[i], "manifest");
        PathsDiffer(b.names[i], "health");
      }
    }
  }

  /** What one path holds at any crash point: the new text if its move is done, nothing if it was
      removed, and otherwise what was there before. */
  lemma DiskAt(p: Platform, b: Bundle, m: Manifest, health: Option<Record>, disk: Disk, done: nat,
               removed: set<string>, path: string)
    requires WellNamed(b) && Reached(disk, Writes(p, b, m, health), done, removed)
    ensures var writes := Writes(p, b, m, health); var now := After(disk, writes, done, removed);
      && (forall i | 0 <= i < done && writes[i].0 == path :: path in now && now[path] == writes[i].1)
      && ((forall i | 0 <= i < done :: writes[i].0 != path) && path !in removed ==>
            (path in now <==> path in disk) && (path in disk ==> now[path] == disk[path]))
      && (path in removed ==> path !in now)
  {
    var writes := Writes(p, b, m, health);
    WritesAreDistinct(p, b, m, health);
    assert forall i | 0 <= i < done :: writes[..done][i] == writes[i];
    OverwriteAt(disk, writes[..done], path);
    if path in removed {
      assert forall i | 0 <= i < |writes| :: writes[i].0 != path;
    }
  }

  /** `explorer/` is never touched, at any crash point, unless a document is published under it. */
  lemma ExplorerUntouched(p: Platform, b: Bundle, m: Manifest, health: Option<Record>, disk: Disk, done: nat,
                          removed: set<string>, path: string)
    requires WellNamed(b) && Reached(disk, Writes(p, b, m, health), done, removed)
    requires UnderExplorer(path) && forall n | n in b.names :: !UnderExplorer(PathOf(n))
    ensures var now := After(disk, Writes(p, b, m, health), done, removed);
            (path in now <==> path in disk) && (path in disk ==> now[path] == disk[path])
  {
    DiskAt(p, b, m, health, disk, done, removed, path);
    var writes := Writes(p, b, m, health);
    forall i | 0 <= i < done ensures writes[i].0 != path {
      if i < |b.names| {
        assert b.names[i] in b.names;
      } else {
        assert MANIFEST[..9] != "explorer/" && HEALTH[..9] != "explorer/" by {
          assert MANIFEST[..9][0] == 'm' && HEALTH[..9][0] == 'h' && "explorer/"[0] == 'e';
        }
      }
    }
  }

  /** A document under `explorer/` is written there, over whatever was published there. */
  lemma ExplorerDocumentIsWritten(p: Platform, b: Bundle, m: Manifest, health: Option<Record>, disk: Disk, i: nat)
    requires WellNamed(b) && i < |b.names| && UnderExplorer(PathOf(b.names[i]))
    ensures var writes := Writes(p, b, m, health); var now := After(disk, writes, |writes|, Stale(disk, writes));
      PathOf(b.names[i]) in now && now[PathOf(b.names[i])] == p.dumps(b.docs[b.names[i]], b.compact)
  {
    var writes := Writes(p, b, m, health);
    DiskAt(p, b, m, health, disk, |writes|, Stale(disk, writes), PathOf(b.names[i]));
    assert writes[i].0 == PathOf(b.names[i]);
  }

  lemma NamedAt(p: Platform, b: Bundle, m: Manifest, health: Option<Record>, n: string)
    requires WellNamed(b) && n in b.docs
    ensures exists i :: 0 <= i < |b.names| && b.names[i] == n &&
                        Writes(p, b, m, health)[i] == (PathOf(n), p.dumps(b.docs[n], b.compact))
  {
    assert n in b.names;
    var i :| 0 <= i < |b.names| && b.names[i] == n;
    assert Writes(p, b, m, health)[i] == (PathOf(n), p.dumps(b.docs[n], b.compact));
  }

  lemma ManifestIsLast(p: Platform, b: Bundle, m: Manifest, health: Option<Record>)
    requires WellNamed(b)
    ensures var writes := Writes(p, b, m, health);
      writes[|writes| - 1] == (MANIFEST, p.dumpManifest(m)) && forall i | 0 <= i < |writes| - 1 :: writes[i].0 != MANIFEST
  {
    var writes := Writes(p, b, m, health);
    WritesAreDistinct(p, b, m, health);
    assert writes[|writes| - 1] == (MANIFEST, p.dumpManifest(m));
  }

  /** The manifest on disk is the old one until every document is in place, and then the new. */
  lemma ManifestSwitches(p: Platform, b: Bundle, m: Manifest, health: Option<Record>, disk: Disk, done: nat,
                         removed: set<string>)
    requires Sound(p) && p.holdsManifest(m) && WellNamed(b) && Reached(disk, Writes(p, b, m, health), done, removed)
    ensures Seen(p, After(disk, Writes(p, b, m, health), done, removed)) ==
            if done == |Writes(p, b, m, health)| then Some(m) else Seen(p, disk)
  {
    var writes := Writes(p, b, m, health);
    ManifestIsLast(p, b, m, health);
    DiskAt(p, b, m, health, disk, done, removed, MANIFEST);
  }

  /** Once the new manifest is in place, every file it names is there with its digest. */
  lemma NewManifestIsTrue(p: Platform, b: Bundle, runId: Value, about: Record, health: Option<Record>, disk: Disk,
                          removed: set<string>)
    requires WellNamed(b)
    requires var writes := Writes(p, b, BuildManifest(p, b, runId, about), health); Reached(disk, writes, |writes|, removed)
    ensures var m := BuildManifest(p, b, runId, about); var writes := Writes(p, b, m, health);
      && Matches(p, After(disk, writes, |writes|, removed), m)
      && forall n | n in b.docs :: PathOf(n) in After(disk, writes, |writes|, removed)
                                   && After(disk, writes, |writes|, removed)[PathOf(n)] == p.dumps(b.docs[n], b.compact)
  {
    var m := BuildManifest(p, b, runId, about);
    var writes := Writes(p, b, m, health);
    forall n | n in b.docs
      ensures PathOf(n) in After(disk, writes, |writes|, removed)
      ensures After(disk, writes, |writes|, removed)[PathOf(n)] == p.dumps(b.docs[n], b.compact)
    {
      NamedAt(p, b, m, health, n);
      DiskAt(p, b, m, health, disk, |writes|, removed, PathOf(n));
    }
  }

  /** Re-publishing the very same manifest over a true one: it stays true at every point. */
  lemma SameManifestStaysTrue(p: Platform, b: Bundle, runId: Value, about: Record, health: Option<Record>, disk: Disk,
                              done: nat)
    requires WellNamed(b)
    requires var m := BuildManifest(p, b, runId, about); Matches(p, disk, m) && done < |Writes(p, b, m, health)|
    ensures var m := BuildManifest(p, b, runId, about); Matches(p, After(disk, Writes(p, b, m, health), done, {}), m)
  {
    var m := BuildManifest(p, b, runId, about);
    var writes := Writes(p, b, m, health);
    var now := After(disk, writes, done, {});
    forall n | n in m.files ensures m.files[n].path in now && p.sha(now[m.files[n].path]) == m.files[n].sha {
      NamedAt(p, b, m, health, n);
      DiskAt(p, b, m, health, disk, done, {}, PathOf(n));
      var i :| 0 <= i < |b.names| && b.names[i] == n && writes[i] == (PathOf(n), p.dumps(b.docs[n], b.compact));
      WritesAreDistinct(p, b, m, health);
    }
  }

  /** At every crash point: if the manifest on disk is the new one, it is true. */
  lemma NewManifestNeverLies(p: Platform, b: Bundle, runId: Value, about: Record, health: Option<Record>, disk: Disk,
                             done: nat, removed: set<string>)
    requires Sound(p) && p.holdsManifest(BuildManifest(p, b, runId, about)) && WellNamed(b)
    requires Reached(disk, Writes(p, b, BuildManifest(p, b, runId, about), health), done, removed)
    requires Seen(p, disk) == Some(BuildManifest(p, b, runId, about)) ==> Matches(p, disk, BuildManifest(p, b, runId, about))
    ensures var m := BuildManifest(p, b, runId, about); var now := After(disk, Writes(p, b, m, health), done, removed);
      Seen(p, now) == Some(m) ==> Matches(p, now, m)
  {
    var m := BuildManifest(p, b, runId, about);
    ManifestSwitches(p, b, m, health, disk, done, removed);
    if done == |Writes(p, b, m, health)| {
      NewManifestIsTrue(p, b, runId, about, health, disk, removed);
    } else if Seen(p, disk) == Some(m) {
      SameManifestStaysTrue(p, b, runId, about, health, disk, done);
    }
  }

  /** A reader whose digests all match has one publication's files: the old one's, byte for byte,
      or the new one's. */
  lemma MatchingIsOnePublication(p: Platform, b: Bundle, runId: Value, about: Record, health: Option<Record>,
                                disk: Disk, done: nat, removed: set<string>)
    requires Sound(p) && p.holdsManifest(BuildManifest(p, b, runId, about)) && WellNamed(b)
    requires Reached(disk, Writes(p, b, BuildManifest(p, b, runId, about), health), done, removed)
    requires Seen(p, disk).Some? ==> Matches(p, disk, Seen(p, disk).value)
    ensures var m := BuildManifest(p, b, runId, about); var now := After(disk, Writes(p, b, m, health), done, removed);
      Seen(p, now).Some? && Matches(p, now, Seen(p, now).value) ==>
        || (Seen(p, now) == Some(m) && forall n | n in b.docs :: PathOf(n) in now && now[PathOf(n)] == p.dumps(b.docs[n], b.compact))
        || (Seen(p, now) == Seen(p, disk) && forall n | n in Seen(p, disk).value.files ::
              var path := Seen(p, disk).value.files[n].path; path in now && path in disk && now[path] == disk[path])
  {
    var m := BuildManifest(p, b, runId, about);
    ManifestSwitches(p, b, m, health, disk, done, removed);
    if done == |Writes(p, b, m, health)| {
      NewManifestIsTrue(p, b, runId, about, health, disk, removed);
    }
  }

  /** A file this manifest names was replaced by a different text before the crash. */
  ghost predicate Replaced(writes: seq<(string, string)>, disk: Disk, done: nat, m: Manifest)
    requires done <= |writes|
  {
    exists n, i :: n in m.files && 0 <= i < done && writes[i].0 == m.files[n].path
                   && m.files[n].path in disk && writes[i].1 != disk[m.files[n].path]
  }

  /** The digests of the old manifest expose a half-done publication exactly when it has changed a
      file that manifest names. */
  lemma HalfDoneIsDetectedIff(p: Platform, b: Bundle, m: Manifest, health: Option<Record>, disk: Disk, done: nat)
    requires Sound(p) && p.holdsManifest(m) && WellNamed(b) && done < |Writes(p, b, m, health)|
    requires Seen(p, disk).Some? && Matches(p, disk, Seen(p, disk).value)
    ensures var writes := Writes(p, b, m, health); var now := After(disk, writes, done, {});
      && Seen(p, now) == Seen(p, disk)
      && (Matches(p, now, Seen(p, now).value) <==> !Replaced(writes, disk, done, Seen(p, disk).value))
  {
    var writes, old_ := Writes(p, b, m, health), Seen(p, disk).value;
    var now := After(disk, writes, done, {});
    ManifestSwitches(p, b, m, health, disk, done, {});
    WritesAreDistinct(p, b, m, health);
    forall n | n in old_.files
      ensures old_.files[n].path in now
      ensures now[old_.files[n].path] != disk[old_.files[n].path] <==>
              exists i :: 0 <= i < done && writes[i].0 == old_.files[n].path && writes[i].1 != disk[old_.files[n].path]
    {
      DiskAt(p, b, m, health, disk, done, {}, old_.files[n].path);
    }
    if Replaced(writes, disk, done, old_) {
      var n, i :| n in old_.files && 0 <= i < done && writes[i].0 == old_.files[n].path
                  && old_.files[n].path in disk && writes[i].1 != disk[old_.files[n].path];
      assert p.sha(now[old_.files[n].path]) != p.sha(disk[old_.files[n].path]);
    }
  }

  // ------------------------------------------------------------- verification of a published tree

  function Parsed(p: Platform, disk: Disk, path: string): Option<Record> {
    if path in disk && p.loads(disk[path]).Some? && p.loads(disk[path]).value.Obj?
    then Some(p.loads(disk[path]).value.fields) else None
  }

  predicate NamedParses(p: Platform, disk: Disk, m: Manifest, n: string) {
    n in m.files && Parsed(p, disk, m.files[n].path).Some?
  }

  predicate AllParse(p: Platform, disk: Disk, m: Manifest) {
    forall n | n in m.files :: NamedParses(p, disk, m, n)
  }

  function DocsOf(p: Platform, disk: Disk, m: Manifest): map<string, Record>
    requires AllParse(p, disk, m)
  {
    map n | n in m.files :: Parsed(p, disk, m.files[n].path).value
  }

  function DigestsOf(p: Platform, disk: Disk, m: Manifest): map<string, string>
    requires AllParse(p, disk, m)
  {
    map n | n in m.files :: p.sha(disk[m.files[n].path])
  }

  predicate Verifies(p: Platform, disk: Disk) {
    && Seen(p, disk).Some?
    && var m := Seen(p, disk).value;
    && AllParse(p, disk, m)
    && p.bundleOk(DocsOf(p, disk, m))
    && ManifestAgrees(m, DocsOf(p, disk, m), DigestsOf(p, disk, m))
    && Parsed(p, disk, HEALTH).Some?
    && p.healthOk(Parsed(p, disk, HEALTH).value)
  }

  /** A file of the tree, read as a JSON object. */
  ghost predicate Holds(p: Platform, disk: Disk, path: string, doc: Record) {
    path in disk && p.loads(disk[path]) == Some(Obj(doc))
  }

  /** The files a manifest names are there, hold these documents, and agree with it. */
  ghost predicate FilesHold(p: Platform, disk: Disk, m: Manifest, docs: map<string, Record>) {
    && docs.Keys == m.files.Keys
    && (forall n | n in m.files :: Holds(p, disk, m.files[n].path, docs[n]))
    && (forall n | n in m.files :: EntryHolds(m, n, docs[n], Some(p.sha(disk[m.files[n].path]))))
  }

  lemma FilesParseIff(p: Platform, disk: Disk, m: Manifest, docs: map<string, Record>)
    ensures docs.Keys == m.files.Keys && (forall n | n in m.files :: Holds(p, disk, m.files[n].path, docs[n])) <==>
            AllParse(p, disk, m) && docs == DocsOf(p, disk, m)
  {
    forall n | n in m.files && n in docs
      ensures Holds(p, disk, m.files[n].path, docs[n]) <==>
              NamedParses(p, disk, m, n) && docs[n] == Parsed(p, disk, m.files[n].path).value
    {
    }
  }

  lemma FilesHoldIff(p: Platform, disk: Disk, m: Manifest, docs: map<string, Record>)
    ensures FilesHold(p, disk, m, docs) <==>
            AllParse(p, disk, m) && docs == DocsOf(p, disk, m) && ManifestAgrees(m, docs, DigestsOf(p, disk, m))
  {
    FilesParseIff(p, disk, m, docs);
    if AllParse(p, disk, m) {
      AgreesIff(m, docs, DigestsOf(p, disk, m));
    }
  }

  /** What verifying a published tree means, file by file. */
  lemma VerifiesIff(p: Platform, disk: Disk)
    ensures Verifies(p, disk) <==>
      && "manifest.json" in disk && p.loadManifest(disk["manifest.json"]).Some?
      && (exists docs :: FilesHold(p, disk, p.loadManifest(disk["manifest.json"]).value, docs) && p.bundleOk(docs))
      && exists health :: Holds(p, disk, "health.json", health) && p.healthOk(health)
  {
    if Seen(p, disk).Some? {
      var m := Seen(p, disk).value;
      forall docs: map<string, Record> ensures FilesHold(p, disk, m, docs) <==>
        AllParse(p, disk, m) && docs == DocsOf(p, disk, m) && ManifestAgrees(m, docs, DigestsOf(p, disk, m))
      {
        FilesHoldIff(p, disk, m, docs);
      }
      HealthRead(p, disk);
    }
  }

  lemma HealthRead(p: Platform, disk: Disk)
    ensures Parsed(p, disk, HEALTH).Some? && p.healthOk(Parsed(p, disk, HEALTH).value) <==>
            exists health :: Holds(p, disk, "health.json", health) && p.healthOk(health)
  {
    if Parsed(p, disk, HEALTH).Some? { assert Holds(p, disk, "health.json", Parsed(p, disk, HEALTH).value); }
  }

  /** A set, as the list a loop goes through. */
  method Listed(names: set<string>) returns (list: seq<string>)
    ensures forall n :: n in list <==> n in names
  {
    list := [];
    var left := names;
    while left != {}
      invariant forall n :: n in names <==> n in list || n in left
      decreases |left|
    {
      var n :| n in left;
      left := left - {n};
      list := list + [n];
    }
  }

  /** Reads the files the manifest names, in this order. */
  method ReadFiles(p: Platform, disk: Disk, m: Manifest, names: seq<string>)
    returns (problems: nat, docs: map<string, Record>, digests: map<string, string>)
    requires forall n :: n in names <==> n in m.files
    ensures problems == 0 <==> AllParse(p, disk, m)
    ensures problems == 0 ==> docs == DocsOf(p, disk, m) && digests == DigestsOf(p, disk, m)
  {
    docs, digests, problems := map[], map[], 0;
    for i := 0 to |names|
      invariant problems == 0 <==> forall j | 0 <= j < i :: NamedParses(p, disk, m, names[j])
      invariant problems == 0 ==> docs.Keys == digests.Keys == set j | 0 <= j < i :: names[j]
      invariant forall n | n in docs :: NamedParses(p, disk, m, n) && docs[n] == Parsed(p, disk, m.files[n].path).value
      invariant forall n | n in digests :: NamedParses(p, disk, m, n) && digests[n] == p.sha(disk[m.files[n].path])
    {
      var n := names[i];
      if NamedParses(p, disk, m, n) {
        docs := docs[n := Parsed(p, disk, m.files[n].path).value];
        digests := digests[n := p.sha(disk[m.files[n].path])];
      } else {
        problems := problems + 1;
      }
    }
    if problems == 0 {
      forall n | n in m.files ensures NamedParses(p, disk, m, n) && n in docs {
        assert n in names;
      }
    }
  }

  /** Re-validates a published tree; the number of problems found. */
  method VerifyPublished(p: Platform, disk: Disk) returns (problems: nat)
    ensures problems == 0 <==> Verifies(p, disk)
  {
    if Seen(p, disk).None? {
      return 1;
    }
    var m := Seen(p, disk).value;
    var names := Listed(m.files.Keys);
    var docs, digests;
    problems, docs, digests := ReadFiles(p, disk, m, names);
    if !p.bundleOk(docs) {
      problems := problems + 1;
    }
    if !ManifestAgrees(m, docs, digests) {
      problems := problems + 1;
    }
    if Parsed(p, disk, HEALTH).None? || !p.healthOk(Parsed(p, disk, HEALTH).value) {
      problems := problems + 1;
    }
  }

  /** A completed publication passes verification exactly when it was given a health document:
      without one, the health file of the previous publication is removed as stale. */
  lemma CompletedVerifiesIffHealth(p: Platform, b: Bundle, runId: Value, about: Record, health: Option<Record>,
                                disk: Disk)
    requires Sound(p) && Holdable(p, b, BuildManifest(p, b, runId, about), health)
    requires WellNamed(b) && Publishable(p, b, runId, about, health)
    ensures var writes := Writes(p, b, BuildManifest(p, b, runId, about), health);
      Verifies(p, After(disk, writes, |writes|, Stale(disk, writes))) <==> health.Some?
  {
    var m := BuildManifest(p, b, runId, about);
    var writes := Writes(p, b, m, health);
    ManifestSwitches(p, b, m, health, disk, |writes|, Stale(disk, writes));
    NewManifestIsTrue(p, b, runId, about, health, disk, Stale(disk, writes));
    HealthAfter(p, b, m, health, disk);
    PublishedVerifies(p, b, runId, about, health, After(disk, writes, |writes|, Stale(disk, writes)));
  }

  lemma PublishedVerifies(p: Platform, b: Bundle, runId: Value, about: Record, health: Option<Record>, now: Disk)
    requires Sound(p) && WellNamed(b) && Publishable(p, b, runId, about, health) && forall n | n in b.docs :: p.holds(b.docs[n])
    requires Seen(p, now) == Some(BuildManifest(p, b, runId, about)) && Parsed(p, now, HEALTH) == health
    requires forall n | n in b.docs :: PathOf(n) in now && now[PathOf(n)] == p.dumps(b.docs[n], b.compact)
    ensures Verifies(p, now) <==> health.Some?
  {
    DocumentsReadBack(p, b, BuildManifest(p, b, runId, about), now);
  }

  lemma HealthAfter(p: Platform, b: Bundle, m: Manifest, health: Option<Record>, disk: Disk)
    requires Sound(p) && (health.Some? ==> p.holds(health.value)) && WellNamed(b)
    ensures var writes := Writes(p, b, m, health); var now := After(disk, writes, |writes|, Stale(disk, writes));
      Parsed(p, now, HEALTH) == health
  {
    var writes := Writes(p, b, m, health);
    DiskAt(p, b, m, health, disk, |writes|, Stale(disk, writes), HEALTH);
    WritesAreDistinct(p, b, m, health);
    if health.Some? {
      assert writes[|b.names|] == (HEALTH, p.dumps(health.value, false));
    } else {
      forall i | 0 <= i < |writes| ensures writes[i].0 != HEALTH {
        if i < |b.names| {
          assert b.names[i] in b.names && PathOf("health") == HEALTH;
          PathsDiffer(b.names[i], "health");
        }
      }
      assert !UnderExplorer(HEALTH) by { assert HEALTH[..9][0] == 'h' && "explorer/"[0] == 'e'; }
      assert IsJson(HEALTH);
    }
  }

  lemma DocumentsReadBack(p: Platform, b: Bundle, m: Manifest, now: Disk)
    requires Sound(p) && WellNamed(b) && forall n | n in b.docs :: p.holds(b.docs[n])
    requires m.files.Keys == b.docs.Keys && forall n | n in b.docs :: m.files[n].path == PathOf(n)
    requires forall n | n in b.docs :: PathOf(n) in now && now[PathOf(n)] == p.dumps(b.docs[n], b.compact)
    ensures AllParse(p, now, m)
    ensures DocsOf(p, now, m) == b.docs
    ensures DigestsOf(p, now, m) == map n | n in b.docs :: p.sha(p.dumps(b.docs[n], b.compact))
  {
    assert forall n | n in b.docs :: Parsed(p, now, m.files[n].path) == Some(b.docs[n]);
  }
}
