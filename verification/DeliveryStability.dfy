/** A delivered head stands still until the payload or a canonical file changes, and a merged batch
    is never proposed again. */
module DeliveryStability {
  import opened Json
  import opened Importer
  import LedgerFile
  import opened DeliveryBranch
  import opened Delivery
  import opened DeliverySafety

  /** The parent's tree. */
  function BaseTree(objects: map<Sha, Commit>, sha: Sha): Tree {
    if sha in objects && HasLedger(objects, objects[sha].parent) then objects[objects[sha].parent.value].tree
    else Tree([], map[])
  }

  /** What a commit holds at the canonical paths. */
  function CanonicalAt(dest: Destination, objects: map<Sha, Commit>, sha: Sha): (seq<Record>, map<string, string>) {
    if sha in objects then Canonical(dest, objects[sha].tree) else ([], map[])
  }

  // ------------------------------------------------------------- nothing to deliver

  /** "Nothing to deliver" is never said about a branch that was kept: a branch always differs
      from its own base. */
  lemma NothingOnlyFromMain(dest: Destination, s: System, run: nat, sha: Sha)
    requires Inv(dest, s) && !s.strayed && Enabled(dest, s, SettleRun(run, sha))
    requires Next(dest, s, SettleRun(run, sha)).clones[run].phase == Settled(Nothing)
    ensures SeedOf(dest, s.remote.objects, s.clones[run]).1 == SEED_MAIN
    ensures s.clones[run].work == s.remote.objects[s.clones[run].base].tree
  {
    var c := s.clones[run];
    SettleShape(dest, s, c, sha);
    SeedIsKnown(dest, s.remote.objects, s.mains, s.strayed, c);
  }

  // ------------------------------------------------------------- a stable head

  /** The branch is at `h`, a commit that may be committed, and no import left stray files. */
  ghost predicate Standing(dest: Destination, s: System, h: Sha) {
    && Described(dest) && Inv(dest, s) && !s.strayed
    && s.remote.branch == Some(h)
    && Uncommittable(StagedPaths(dest.ledgerPath, BaseTree(s.remote.objects, h), s.remote.objects[h].tree), dest.prefixes) == Some({})
  }

  /** A clone that cannot disturb the head `h`: it is done, or it did not see `h` and its lease is
      stale, or its canonical files are those `h` was built on and `h` holds all it carries. */
  ghost predicate Calm(dest: Destination, objects: map<Sha, Commit>, h: Sha, c: Clone) {
    || c.phase.Settled?
    || (c.phase != Cloned && c.tracking.head != Some(h))
    || (&& CanonicalAt(dest, objects, c.base) == Canonical(dest, BaseTree(objects, h))
        && Absorbs(dest.importer, Ledger(objects, h), c.payload)
        && (c.phase != Cloned ==> c.readable))
  }

  /** The head stands, on the canonical files main has, and holds the whole payload. */
  ghost predicate Stable(dest: Destination, s: System, h: Sha) {
    && Standing(dest, s, h)
    && CanonicalAt(dest, s.remote.objects, s.remote.main) == Canonical(dest, BaseTree(s.remote.objects, h))
    && Absorbs(dest.importer, Ledger(s.remote.objects, h), s.payload)
    && (forall run :: run in s.clones ==> Calm(dest, s.remote.objects, h, s.clones[run]))
  }

  /** Neither the payload nor any canonical file changes, canonical files can be compared, and the
      importer writes nothing but the ledger. Clocks, main's other files and failed fetches are
      free. */
  ghost predicate Quiet(dest: Destination, s: System, l: Label) {
    match l
    case Grow(_) => false
    case OpenRun(_, _) => true
    case SeedRun(_, _, readable) => readable
    case ImportRun(_, _, stray) => stray == map[]
    case SettleRun(_, _) => true
    case MergeRun(_, _, _) => false
    case MainMoves(_, tree) => Canonical(dest, tree) == CanonicalAt(dest, s.remote.objects, s.remote.main)
    case DropBranch => false
  }

  ghost predicate AllQuiet(dest: Destination, s: System, ls: seq<Label>)
    decreases |ls|
  {
    ls != [] ==> Quiet(dest, s, ls[0]) && AllQuiet(dest, Next(dest, s, ls[0]), ls[1..])
  }

  /** A run that reads the stable head reproduces its tree exactly, whatever its clock read. */
  lemma RunReproducesHead(dest: Destination, s: System, h: Sha, c: Clone)
    requires Stable(dest, s, h) && CloneOk(dest, s.remote.objects, s.mains, s.strayed, c)
    requires Calm(dest, s.remote.objects, h, c) && c.phase == Imported && c.tracking.head == Some(h)
    ensures SeedOf(dest, s.remote.objects, c) == (h, SEED_BRANCH)
    ensures c.work == s.remote.objects[h].tree
  {
    assert c.readable;
    assert c.tracking.base == s.remote.objects[h].parent;
  }

  /** It therefore adopts the head as it is: nothing on the remote moves. */
  lemma RunAdopts(dest: Destination, s: System, h: Sha, run: nat, sha: Sha)
    requires Stable(dest, s, h) && Enabled(dest, s, SettleRun(run, sha))
    requires s.clones[run].tracking.head == Some(h)
    ensures var s' := Next(dest, s, SettleRun(run, sha));
      s'.remote == s.remote && s'.clones[run].phase == Settled(Adopted) && s'.clones[run].head == h
  {
    var c := s.clones[run];
    assert Calm(dest, s.remote.objects, h, c);
    RunReproducesHead(dest, s, h, c);
    SettleShape(dest, s, c, sha);
  }

  lemma AbsorbsFewer(imp: Importer<string>, ledger: seq<Record>, rows: seq<Value>, fewer: seq<Value>)
    requires Absorbs(imp, ledger, rows) && Rows(fewer) <= Rows(rows)
    ensures Absorbs(imp, ledger, fewer)
  {
    forall i, c | 0 <= i < |fewer| && imp.build(fewer[i], c).Some?
      ensures Lookup(imp, ledger, imp.build(fewer[i], c).value.key).Some?
    {
      assert fewer[i] in Rows(fewer);
      var j :| 0 <= j < |rows| && rows[j] == fewer[i];
      assert imp.build(rows[j], c).Some?;
    }
  }

  lemma SettleKeepsBranch(dest: Destination, s: System, h: Sha, run: nat, sha: Sha)
    requires Stable(dest, s, h) && Enabled(dest, s, SettleRun(run, sha))
    ensures var s' := Next(dest, s, SettleRun(run, sha));
      s'.remote.branch == Some(h) && s'.remote.main == s.remote.main && s'.clones[run].phase.Settled?
  {
    SettleShape(dest, s, s.clones[run], sha);
    if s.clones[run].tracking.head == Some(h) {
      RunAdopts(dest, s, h, run, sha);
    }
  }

  lemma CalmGrows(dest: Destination, objects: map<Sha, Commit>, objects': map<Sha, Commit>, mains: set<Sha>,
                  h: Sha, c: Clone)
    requires Calm(dest, objects, h, c) && c.base in objects && Proposal(dest.importer, objects, mains, false, h)
    requires forall sha :: sha in objects ==> sha in objects' && objects'[sha] == objects[sha]
    ensures Calm(dest, objects', h, c)
  {
  }

  /** What a quiet step leaves: the same branch, main's canonical files, and every object. */
  lemma QuietRemote(dest: Destination, s: System, h: Sha, l: Label)
    requires Stable(dest, s, h) && Enabled(dest, s, l) && Quiet(dest, s, l)
    ensures var s' := Next(dest, s, l);
      && s'.remote.branch == Some(h) && !s'.strayed && s'.payload == s.payload
      && (forall sha :: sha in s.remote.objects ==> sha in s'.remote.objects && s'.remote.objects[sha] == s.remote.objects[sha])
      && CanonicalAt(dest, s'.remote.objects, s'.remote.main) == CanonicalAt(dest, s.remote.objects, s.remote.main)
  {
    if l.SettleRun? {
      SettleShape(dest, s, s.clones[l.run], l.sha);
      SettleKeepsBranch(dest, s, h, l.run, l.sha);
    }
  }

  lemma QuietKeepsCalm(dest: Destination, s: System, h: Sha, l: Label, run: nat)
    requires Stable(dest, s, h) && Enabled(dest, s, l) && Quiet(dest, s, l) && run in Next(dest, s, l).clones
    ensures Calm(dest, s.remote.objects, h, Next(dest, s, l).clones[run])
  {
    match l
    case SettleRun(r, sha) => SettleShape(dest, s, s.clones[r], sha);
    case OpenRun(_, payload) => AbsorbsFewer(dest.importer, Ledger(s.remote.objects, h), s.payload, payload);
    case _ =>
  }

  lemma QuietKeepsStable(dest: Destination, s: System, h: Sha, l: Label)
    requires Lawful(dest.importer) && Stable(dest, s, h) && Enabled(dest, s, l) && Quiet(dest, s, l)
    ensures Stable(dest, Next(dest, s, l), h)
    ensures Next(dest, s, l).remote.objects[h] == s.remote.objects[h]
  {
    var s' := Next(dest, s, l);
    StepKeepsInv(dest, s, l);
    QuietRemote(dest, s, h, l);
    assert BaseTree(s'.remote.objects, h) == BaseTree(s.remote.objects, h);
    forall run | run in s'.clones ensures Calm(dest, s'.remote.objects, h, s'.clones[run]) {
      QuietKeepsCalm(dest, s, h, l, run);
      if s'.clones[run].base in s.remote.objects {
        CalmGrows(dest, s.remote.objects, s'.remote.objects, s.mains, h, s'.clones[run]);
      }
      BaseKnown(dest, s, l, run);
    }
  }

  lemma BaseKnown(dest: Destination, s: System, l: Label, run: nat)
    requires Inv(dest, s) && Enabled(dest, s, l) && run in Next(dest, s, l).clones
    ensures Next(dest, s, l).clones[run].base in s.remote.objects
  {
    if run in s.clones {
      StepKeepsIdentity(dest, s, l, run);
      assert CloneOk(dest, s.remote.objects, s.mains, s.strayed, s.clones[run]);
    }
  }

  /** Over any number of later runs the head, its tree and every byte of every proposed row stay
      what they were, clock stamps included. */
  lemma {:induction false} HeadIsStable(dest: Destination, s: System, h: Sha, ls: seq<Label>)
    requires Lawful(dest.importer) && Stable(dest, s, h) && Legal(dest, s, ls) && AllQuiet(dest, s, ls)
    ensures Stable(dest, Execute(dest, s, ls), h)
    ensures Execute(dest, s, ls).remote.objects[h] == s.remote.objects[h]
    decreases |ls|
  {
    if ls != [] {
      QuietKeepsStable(dest, s, h, ls[0]);
      HeadIsStable(dest, Next(dest, s, ls[0]), h, ls[1..]);
    }
  }

  /** A successful push starts such a period, whatever else is in flight: a run that has already
      read the branch holds a stale lease, and one that has not must have main's canonical files and
      carry no more than the pushed batch. The batch must be the current payload, on canonical
      files main still has. */
  lemma PushIsStable(dest: Destination, s: System, run: nat, sha: Sha)
    requires Lawful(dest.importer) && Described(dest) && Inv(dest, s) && !s.strayed && Enabled(dest, s, SettleRun(run, sha))
    requires Rows(s.payload) <= Rows(s.clones[run].payload)
    requires CanonicalAt(dest, s.remote.objects, s.remote.main) ==
             CanonicalAt(dest, s.remote.objects, ProposalBase(dest, s.remote.objects, s.clones[run]).0)
    requires forall r :: r in s.clones && s.clones[r].phase == Cloned ==>
               && CanonicalAt(dest, s.remote.objects, s.clones[r].base) == CanonicalAt(dest, s.remote.objects, s.remote.main)
               && Rows(s.clones[r].payload) <= Rows(s.clones[run].payload)
    requires Next(dest, s, SettleRun(run, sha)).clones[run].phase == Settled(Pushed)
    ensures Stable(dest, Next(dest, s, SettleRun(run, sha)), sha)
  {
    var s' := Next(dest, s, SettleRun(run, sha));
    SettleKeepsInv(dest, s, run, sha);
    PushedState(dest, s, run, sha);
    var c := s.clones[run];
    PushStands(dest, s, s', c, ProposalBase(dest, s.remote.objects, c).0, sha);
    AbsorbsFewer(dest.importer, c.work.ledger, c.payload, s.payload);
    forall r | r in s'.clones ensures Calm(dest, s'.remote.objects, sha, s'.clones[r]) {
      if r != run {
        OtherIsCalm(dest, s, run, sha, r);
      }
    }
  }

  /** The state after a push: one more commit, and the branch on it. */
  lemma PushedState(dest: Destination, s: System, run: nat, sha: Sha)
    requires Inv(dest, s) && Enabled(dest, s, SettleRun(run, sha))
    requires Next(dest, s, SettleRun(run, sha)).clones[run].phase == Settled(Pushed)
    ensures var c, s' := s.clones[run], Next(dest, s, SettleRun(run, sha));
      var base := ProposalBase(dest, s.remote.objects, c).0;
      && base in s.remote.objects && s.remote.main in s.remote.objects
      && s'.remote == Remote(s.remote.objects[sha := Commit(Some(base), c.work)], s.remote.main, Some(sha))
      && Uncommittable(StagedPaths(dest.ledgerPath, s.remote.objects[base].tree, c.work), dest.prefixes) == Some({})
      && s'.payload == s.payload && s'.strayed == s.strayed && s'.clones == s.clones[run := s'.clones[run]]
      && Absorbs(dest.importer, c.work.ledger, c.payload)
  {
    SettleShape(dest, s, s.clones[run], sha);
    assert CloneOk(dest, s.remote.objects, s.mains, s.strayed, s.clones[run]);
  }

  /** The branch that commit leaves stands. */
  lemma PushStands(dest: Destination, s: System, s': System, c: Clone, base: Sha, sha: Sha)
    requires Described(dest) && Inv(dest, s') && !s'.strayed
    requires base in s.remote.objects && s.remote.main in s.remote.objects && sha !in s.remote.objects
    requires s'.remote == Remote(s.remote.objects[sha := Commit(Some(base), c.work)], s.remote.main, Some(sha))
    requires Uncommittable(StagedPaths(dest.ledgerPath, s.remote.objects[base].tree, c.work), dest.prefixes) == Some({})
    ensures Standing(dest, s', sha)
    ensures CanonicalAt(dest, s'.remote.objects, s'.remote.main) == CanonicalAt(dest, s.remote.objects, s.remote.main)
    ensures Canonical(dest, BaseTree(s'.remote.objects, sha)) == CanonicalAt(dest, s.remote.objects, base)
    ensures Ledger(s'.remote.objects, sha) == c.work.ledger
  {
    assert s'.remote.objects[base] == s.remote.objects[base];
    assert BaseTree(s'.remote.objects, sha) == s.remote.objects[base].tree;
  }

  lemma OtherIsCalm(dest: Destination, s: System, run: nat, sha: Sha, r: nat)
    requires Inv(dest, s) && Enabled(dest, s, SettleRun(run, sha)) && r in s.clones && r != run
    requires CanonicalAt(dest, s.remote.objects, s.remote.main) ==
             CanonicalAt(dest, s.remote.objects, ProposalBase(dest, s.remote.objects, s.clones[run]).0)
    requires s.clones[r].phase == Cloned ==>
               && CanonicalAt(dest, s.remote.objects, s.clones[r].base) == CanonicalAt(dest, s.remote.objects, s.remote.main)
               && Rows(s.clones[r].payload) <= Rows(s.clones[run].payload)
    requires Next(dest, s, SettleRun(run, sha)).clones[run].phase == Settled(Pushed)
    ensures Calm(dest, Next(dest, s, SettleRun(run, sha)).remote.objects, sha, s.clones[r])
  {
    var c, other := s.clones[run], s.clones[r];
    PushedState(dest, s, run, sha);
    assert CloneOk(dest, s.remote.objects, s.mains, s.strayed, other);
    if other.phase == Cloned {
      AbsorbsFewer(dest.importer, c.work.ledger, c.payload, other.payload);
    } else if other.tracking.head.Some? {
      assert other.tracking.head.value in s.remote.objects;
    }
  }

  // ------------------------------------------------------------- one whole later run

  /** A head that may be committed shows that any change of the ledger alone may be. */
  lemma LedgerIsCommittable(dest: Destination, s: System, h: Sha, a: Tree, b: Tree)
    requires Standing(dest, s, h) && a.rest == b.rest
    ensures Uncommittable(StagedPaths(dest.ledgerPath, a, b), dest.prefixes) == Some({})
  {
    ContainmentMeansUntouched(dest.ledgerPath, dest.prefixes, BaseTree(s.remote.objects, h), s.remote.objects[h].tree);
    ContainmentMeansUntouched(dest.ledgerPath, dest.prefixes, a, b);
  }

  /** The four steps of one run nobody disturbs. */
  function WholeRun(run: nat, payload: seq<Value>, clock: int, sha: Sha): seq<Label> {
    [OpenRun(run, payload), SeedRun(run, true, true), ImportRun(run, clock, map[]), SettleRun(run, sha)]
  }

  /** Such a run after it opened and read the branch. */
  lemma WholeRunSeeds(dest: Destination, s: System, run: nat, payload: seq<Value>) returns (t: System)
    requires Lawful(dest.importer) && Inv(dest, s) && !s.strayed && run !in s.clones && Rows(payload) <= Rows(s.payload)
    ensures var l0, l1 := OpenRun(run, payload), SeedRun(run, true, true);
      && Enabled(dest, s, l0) && Enabled(dest, Next(dest, s, l0), l1) && t == Next(dest, Next(dest, s, l0), l1)
    ensures Inv(dest, t) && t.remote == s.remote && run in t.clones && !t.strayed && t.mains == s.mains
    ensures var c := t.clones[run];
      && c.phase == Seeded && c.payload == payload && c.base == s.remote.main
      && c.tracking == ReadRemoteBranch(s.remote) && c.readable
  {
    var s1 := Next(dest, s, OpenRun(run, payload));
    StepKeepsInv(dest, s, OpenRun(run, payload));
    SeedIsKnown(dest, s1.remote.objects, s1.mains, s1.strayed, Fetched(s1.remote, s1.clones[run], true, true));
    StepKeepsInv(dest, s1, SeedRun(run, true, true));
    t := Next(dest, s1, SeedRun(run, true, true));
  }

  /** What such a run has imported when it comes to settle. */
  lemma WholeRunImports(dest: Destination, s: System, run: nat, payload: seq<Value>, clock: int) returns (t: System)
    requires Lawful(dest.importer) && Inv(dest, s) && !s.strayed && run !in s.clones && Rows(payload) <= Rows(s.payload)
    ensures Inv(dest, t) && t.remote == s.remote && run in t.clones && !t.strayed && t.mains == s.mains
    ensures var c := t.clones[run];
      && c.phase == Imported && c.payload == payload && c.base == s.remote.main
      && c.tracking == ReadRemoteBranch(s.remote) && c.readable
    ensures forall sha :: sha !in s.remote.objects ==>
      && Legal(dest, s, WholeRun(run, payload, clock, sha))
      && Execute(dest, s, WholeRun(run, payload, clock, sha)) == Next(dest, t, SettleRun(run, sha))
  {
    var l0, l1, l2 := OpenRun(run, payload), SeedRun(run, true, true), ImportRun(run, clock, map[]);
    var u := WholeRunSeeds(dest, s, run, payload);
    StepKeepsInv(dest, u, l2);
    t := Next(dest, u, l2);
    forall sha | sha !in s.remote.objects
      ensures Legal(dest, s, WholeRun(run, payload, clock, sha))
      ensures Execute(dest, s, WholeRun(run, payload, clock, sha)) == Next(dest, t, SettleRun(run, sha))
    {
      FourSteps(dest, s, l0, l1, l2, SettleRun(run, sha));
    }
  }

  /** One whole later run, exactly. While main's canonical files are those the head was built on it
      runs on the head: it adopts it when the head holds its rows, and extends it on the same base
      otherwise. Once any canonical file has moved it runs on main: it delivers nothing when main's
      ledger holds its rows, and otherwise replaces the head by a commit on main. */
  lemma LaterRunOutcome(dest: Destination, s: System, h: Sha, run: nat, payload: seq<Value>, clock: int, sha: Sha)
    requires Lawful(dest.importer) && Standing(dest, s, h)
    requires run !in s.clones && sha !in s.remote.objects && Rows(payload) <= Rows(s.payload)
    ensures Legal(dest, s, WholeRun(run, payload, clock, sha))
    ensures var r, t := s.remote, Execute(dest, s, WholeRun(run, payload, clock, sha));
      var kept := CanonicalAt(dest, r.objects, r.main) == Canonical(dest, BaseTree(r.objects, h));
      var seed := if kept then h else r.main;
      && run in t.clones
      && (if Absorbs(dest.importer, Ledger(r.objects, seed), payload) then
            && t.remote == r
            && t.clones[run].phase == Settled(if kept then Adopted else Nothing)
            && t.clones[run].head == seed
          else
            && t.clones[run].phase == Settled(Pushed) && t.remote.branch == Some(sha) && t.remote.main == r.main
            && sha in t.remote.objects
            && t.remote.objects[sha].parent == (if kept then r.objects[h].parent else Some(r.main))
            && Ledger(r.objects, seed) <= Ledger(t.remote.objects, sha))
  {
    var u := WholeRunImports(dest, s, run, payload, clock);
    SettleOnHead(dest, u, h, u.clones[run], sha);
  }

  /** The settling of such a run. */
  lemma SettleOnHead(dest: Destination, s: System, h: Sha, c: Clone, sha: Sha)
    requires Standing(dest, s, h) && CloneOk(dest, s.remote.objects, s.mains, s.strayed, c)
    requires c.phase == Imported && c.base == s.remote.main && c.tracking == ReadRemoteBranch(s.remote) && c.readable
    requires sha !in s.remote.objects
    ensures var r, (remote, c') := s.remote, SettleStep(dest, s.remote, c, sha);
      var kept := CanonicalAt(dest, r.objects, r.main) == Canonical(dest, BaseTree(r.objects, h));
      var seed := if kept then h else r.main;
      if Absorbs(dest.importer, Ledger(r.objects, seed), c.payload) then
        && remote == r && c'.phase == Settled(if kept then Adopted else Nothing) && c'.head == seed
      else
        && c'.phase == Settled(Pushed) && remote.branch == Some(sha) && remote.main == r.main
        && sha in remote.objects
        && remote.objects[sha].parent == (if kept then r.objects[h].parent else Some(r.main))
        && Ledger(r.objects, seed) <= Ledger(remote.objects, sha)
  {
    var objects := s.remote.objects;
    SeedIsKnown(dest, objects, s.mains, s.strayed, c);
    var base := ProposalBase(dest, objects, c).0;
    LedgerIsCommittable(dest, s, h, objects[base].tree, c.work);
    assert BaseTree(objects, h) == objects[objects[h].parent.value].tree;
  }

  /** A canonical file other than the ledger is enough: once one moves on main, the next run with
      undelivered rows replaces the head, although main's ledger is what it was. */
  lemma CanonicalMoveRebuilds(dest: Destination, s: System, h: Sha, m: Sha, tree: Tree, run: nat, clock: int, sha: Sha)
    requires Lawful(dest.importer) && Stable(dest, s, h) && Enabled(dest, s, MainMoves(m, tree))
    requires Canonical(dest, tree) != CanonicalAt(dest, s.remote.objects, s.remote.main)
    requires !Absorbs(dest.importer, tree.ledger, s.payload)
    requires run !in s.clones && sha !in s.remote.objects && sha != m
    ensures var s' := Next(dest, s, MainMoves(m, tree));
      var t := Execute(dest, s', WholeRun(run, s.payload, clock, sha));
      && Legal(dest, s', WholeRun(run, s.payload, clock, sha))
      && t.remote.branch == Some(sha) && sha != h
  {
    var s' := Next(dest, s, MainMoves(m, tree));
    StepKeepsInv(dest, s, MainMoves(m, tree));
    assert BaseTree(s'.remote.objects, h) == BaseTree(s.remote.objects, h);
    LaterRunOutcome(dest, s', h, run, s.payload, clock, sha);
  }

  lemma FourSteps(dest: Destination, s: System, l0: Label, l1: Label, l2: Label, l3: Label)
    ensures var s1 := Next(dest, s, l0); var s2 := Next(dest, s1, l1); var s3 := Next(dest, s2, l2);
      && (Legal(dest, s, [l0, l1, l2, l3]) <==>
            Enabled(dest, s, l0) && Enabled(dest, s1, l1) && Enabled(dest, s2, l2) && Enabled(dest, s3, l3))
      && Execute(dest, s, [l0, l1, l2, l3]) == Next(dest, s3, l3)
  {
    var s1 := Next(dest, s, l0);
    var s2 := Next(dest, s1, l1);
    var s3 := Next(dest, s2, l2);
    OneStep(dest, s, l0, [l1, l2, l3]);
    OneStep(dest, s1, l1, [l2, l3]);
    OneStep(dest, s2, l2, [l3]);
    OneStep(dest, s3, l3, []);
  }

  lemma OneStep(dest: Destination, s: System, l: Label, ls: seq<Label>)
    ensures Legal(dest, s, [l] + ls) <==> Enabled(dest, s, l) && Legal(dest, Next(dest, s, l), ls)
    ensures Execute(dest, s, [l] + ls) == Execute(dest, Next(dest, s, l), ls)
  {
    assert ([l] + ls)[1..] == ls;
  }

  // ------------------------------------------------------------- after a merge

  /** `landed` is on main with everything the payload holds, and no branch and no clone made
      since was built on a main that already had it. */
  ghost predicate Landed(dest: Destination, s: System, landed: seq<Record>) {
    && Inv(dest, s) && !s.strayed
    && Described(dest)
    && landed <= Ledger(s.remote.objects, s.remote.main)
    && Absorbs(dest.importer, landed, s.payload)
    && (s.remote.branch.Some? ==> |BaseTree(s.remote.objects, s.remote.branch.value).ledger| < |landed|)
    && (forall run :: run in s.clones ==> Behind(dest.importer, s.remote.objects, landed, s.clones[run]))
  }

  /** A clone either opened on a main without `landed`, or carries only what `landed` absorbs and
      read no branch built on it. */
  ghost predicate Behind(imp: Importer<string>, objects: map<Sha, Commit>, landed: seq<Record>, c: Clone) {
    && (|Ledger(objects, c.base)| < |landed| || (landed <= Ledger(objects, c.base) && Absorbs(imp, landed, c.payload)))
    && (c.tracking.head.Some? ==> |BaseTree(objects, c.tracking.head.value).ledger| < |landed|)
  }

  /** The ledger of a proposal is strictly longer than its base's. */
  lemma ProposalAdds(imp: Importer<string>, objects: map<Sha, Commit>, mains: set<Sha>, sha: Sha)
    requires Proposal(imp, objects, mains, false, sha)
    ensures BaseTree(objects, sha) == objects[objects[sha].parent.value].tree
    ensures |BaseTree(objects, sha).ledger| < |Ledger(objects, sha)|
  {
  }

  /** The merge of a batch that holds the whole payload lands it. */
  lemma MergeLands(dest: Destination, s: System, run: nat, rest: map<string, string>, sha: Sha)
    requires Lawful(dest.importer) && Inv(dest, s) && !s.strayed && Enabled(dest, s, MergeRun(run, rest, sha))
    requires Described(dest)
    requires s.remote.branch == Some(s.clones[run].head)
    requires Ledger(s.remote.objects, s.remote.main) == BaseTree(s.remote.objects, s.clones[run].head).ledger
    requires Rows(s.payload) <= Rows(s.clones[run].payload)
    ensures var s' := Next(dest, s, MergeRun(run, rest, sha));
      && Ledger(s'.remote.objects, s'.remote.main) == Ledger(s.remote.objects, s.clones[run].head)
      && Landed(dest, s', Ledger(s'.remote.objects, s'.remote.main))
  {
    var imp, c, s' := dest.importer, s.clones[run], Next(dest, s, MergeRun(run, rest, sha));
    var landed := Ledger(s.remote.objects, c.head);
    MergeKeepsInv(dest, s, run, rest, sha);
    assert CloneOk(dest, s.remote.objects, s.mains, s.strayed, c);
    ProposalAdds(imp, s.remote.objects, s.mains, c.head);
    AbsorbsFewer(imp, landed, c.payload, s.payload);
    forall r | r in s'.clones ensures Behind(imp, s'.remote.objects, landed, s'.clones[r]) {
      var other := s.clones[r];
      assert CloneOk(dest, s.remote.objects, s.mains, s.strayed, other);
      assert Ledger(s.remote.objects, other.base) <= Ledger(s.remote.objects, s.remote.main);
      if other.tracking.head.Some? {
        var p := s.remote.objects[other.tracking.head.value].parent.value;
        assert Ledger(s.remote.objects, p) <= Ledger(s.remote.objects, s.remote.main);
        assert BaseTree(s'.remote.objects, other.tracking.head.value).ledger == Ledger(s.remote.objects, p);
      }
    }
  }

  /** A run that opened after the landing is seeded from main and rebuilds main's own tree. */
  lemma LandedRunIsEmpty(dest: Destination, s: System, landed: seq<Record>, c: Clone)
    requires Landed(dest, s, landed) && CloneOk(dest, s.remote.objects, s.mains, s.strayed, c)
    requires Behind(dest.importer, s.remote.objects, landed, c)
    requires c.phase == Imported && landed <= Ledger(s.remote.objects, c.base)
    ensures SeedOf(dest, s.remote.objects, c) == (c.base, SEED_MAIN)
    ensures c.work == s.remote.objects[c.base].tree
  {
    var imp, onMain := dest.importer, Ledger(s.remote.objects, c.base);
    assert onMain == landed + onMain[|landed|..];
    AbsorbsGrows(imp, landed, onMain[|landed|..], c.payload);
  }

  lemma NothingStaged(dest: Destination, tree: Tree)
    requires exists i :: 0 <= i < |dest.prefixes| && dest.prefixes[i] != ""
    ensures Uncommittable(StagedPaths(dest.ledgerPath, tree, tree), dest.prefixes) == Some({})
  {
    var staged := StagedPaths(dest.ledgerPath, tree, tree);
    assert staged == {};
    assert (set path | path in staged && !LedgerFile.Blank(path) && !Contained(path, dest.prefixes)) == {};
  }

  /** After a merge the same payload is not proposed again: the run reports nothing to deliver,
      from main, and moves nothing. */
  lemma LandedRunDeliversNothing(dest: Destination, s: System, landed: seq<Record>, run: nat, sha: Sha)
    requires Landed(dest, s, landed) && Enabled(dest, s, SettleRun(run, sha))
    requires landed <= Ledger(s.remote.objects, s.clones[run].base)
    ensures SeedOf(dest, s.remote.objects, s.clones[run]).1 == SEED_MAIN
    ensures Next(dest, s, SettleRun(run, sha)).clones[run].phase == Settled(Nothing)
    ensures Next(dest, s, SettleRun(run, sha)).remote == s.remote
  {
    var c := s.clones[run];
    LandedRunIsEmpty(dest, s, landed, c);
    NothingStaged(dest, c.work);
  }

  /** The steps that cannot bring anything new: no new rows, and an importer that writes nothing
      but the ledger. */
  ghost predicate NothingNew(l: Label) {
    !l.Grow? && (l.ImportRun? ==> l.stray == map[])
  }

  lemma PushAfterLanding(dest: Destination, s: System, landed: seq<Record>, run: nat, sha: Sha)
    requires Landed(dest, s, landed) && Enabled(dest, s, SettleRun(run, sha))
    requires Next(dest, s, SettleRun(run, sha)).clones[run].phase == Settled(Pushed)
    ensures |Ledger(s.remote.objects, ProposalBase(dest, s.remote.objects, s.clones[run]).0)| < |landed|
  {
    var c := s.clones[run];
    assert Behind(dest.importer, s.remote.objects, landed, c);
    if landed <= Ledger(s.remote.objects, c.base) {
      LandedRunDeliversNothing(dest, s, landed, run, sha);
    } else {
      SeedIsKnown(dest, s.remote.objects, s.mains, s.strayed, c);
    }
  }

  lemma BehindGrows(imp: Importer<string>, objects: map<Sha, Commit>, objects': map<Sha, Commit>, mains: set<Sha>,
                    landed: seq<Record>, c: Clone)
    requires Behind(imp, objects, landed, c) && c.base in objects && TrackingOk(imp, objects, mains, false, c.tracking)
    requires forall sha :: sha in objects ==> sha in objects' && objects'[sha] == objects[sha]
    ensures Behind(imp, objects', landed, c)
  {
  }

  lemma StepKeepsBehind(dest: Destination, s: System, landed: seq<Record>, l: Label, run: nat)
    requires Lawful(dest.importer) && Landed(dest, s, landed) && Enabled(dest, s, l) && NothingNew(l)
    requires run in Next(dest, s, l).clones
    ensures Behind(dest.importer, Next(dest, s, l).remote.objects, landed, Next(dest, s, l).clones[run])
  {
    MainGrows(dest, s, l);
    if run !in s.clones {
      AbsorbsFewer(dest.importer, landed, s.payload, l.payload);
    } else {
      StepKeepsIdentity(dest, s, l, run);
      var c := s.clones[run].(tracking := Next(dest, s, l).clones[run].tracking);
      assert CloneOk(dest, s.remote.objects, s.mains, s.strayed, s.clones[run]);
      assert Behind(dest.importer, s.remote.objects, landed, c);
      BehindGrows(dest.importer, s.remote.objects, Next(dest, s, l).remote.objects, s.mains, landed, c);
    }
  }

  lemma StepKeepsBranchBehind(dest: Destination, s: System, landed: seq<Record>, l: Label)
    requires Lawful(dest.importer) && Landed(dest, s, landed) && Enabled(dest, s, l) && NothingNew(l)
    ensures var r := Next(dest, s, l).remote;
            r.branch.Some? ==> |BaseTree(r.objects, r.branch.value).ledger| < |landed|
  {
    MainGrows(dest, s, l);
    if l.SettleRun? {
      SettleShape(dest, s, s.clones[l.run], l.sha);
      if Next(dest, s, l).clones[l.run].phase == Settled(Pushed) {
        PushAfterLanding(dest, s, landed, l.run, l.sha);
      }
    }
  }

  lemma StepKeepsLanded(dest: Destination, s: System, landed: seq<Record>, l: Label)
    requires Lawful(dest.importer) && Landed(dest, s, landed) && Enabled(dest, s, l) && NothingNew(l)
    ensures Landed(dest, Next(dest, s, l), landed)
  {
    StepKeepsInv(dest, s, l);
    MainGrows(dest, s, l);
    StepKeepsBranchBehind(dest, s, landed, l);
    forall run | run in Next(dest, s, l).clones
      ensures Behind(dest.importer, Next(dest, s, l).remote.objects, landed, Next(dest, s, l).clones[run])
    {
      StepKeepsBehind(dest, s, landed, l, run);
    }
  }

  lemma {:induction false} LandedForever(dest: Destination, s: System, landed: seq<Record>, ls: seq<Label>)
    requires Lawful(dest.importer) && Landed(dest, s, landed) && Legal(dest, s, ls)
    requires forall i | 0 <= i < |ls| :: NothingNew(ls[i])
    ensures Landed(dest, Execute(dest, s, ls), landed)
    decreases |ls|
  {
    if ls != [] {
      StepKeepsLanded(dest, s, landed, ls[0]);
      LandedForever(dest, Next(dest, s, ls[0]), landed, ls[1..]);
    }
  }

  /** A merged batch is never proposed again: in every later state reached without new rows, a
      run that opened on the merged ledger finds nothing to deliver. */
  lemma MergedIsNeverReproposed(dest: Destination, s: System, run: nat, rest: map<string, string>, sha: Sha,
                                ls: seq<Label>, later: nat, sha': Sha)
    requires Lawful(dest.importer) && Inv(dest, s) && !s.strayed && Enabled(dest, s, MergeRun(run, rest, sha))
    requires Described(dest)
    requires s.remote.branch == Some(s.clones[run].head)
    requires Ledger(s.remote.objects, s.remote.main) == BaseTree(s.remote.objects, s.clones[run].head).ledger
    requires Rows(s.payload) <= Rows(s.clones[run].payload)
    requires var merged := Next(dest, s, MergeRun(run, rest, sha));
      && Legal(dest, merged, ls) && (forall i | 0 <= i < |ls| :: NothingNew(ls[i]))
      && Enabled(dest, Execute(dest, merged, ls), SettleRun(later, sha'))
      && Ledger(merged.remote.objects, merged.remote.main) <=
         Ledger(Execute(dest, merged, ls).remote.objects, Execute(dest, merged, ls).clones[later].base)
    ensures var t := Execute(dest, Next(dest, s, MergeRun(run, rest, sha)), ls);
      && SeedOf(dest, t.remote.objects, t.clones[later]).1 == SEED_MAIN
      && Next(dest, t, SettleRun(later, sha')).clones[later].phase == Settled(Nothing)
      && Next(dest, t, SettleRun(later, sha')).remote == t.remote
  {
    var merged := Next(dest, s, MergeRun(run, rest, sha));
    var landed := Ledger(merged.remote.objects, merged.remote.main);
    MergeLands(dest, s, run, rest, sha);
    LandedForever(dest, merged, landed, ls);
    LandedRunDeliversNothing(dest, Execute(dest, merged, ls), landed, later, sha');
  }
}
