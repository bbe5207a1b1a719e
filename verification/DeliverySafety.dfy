/** What every run of the delivery protocol keeps, and why no accepted wager is lost. */
module DeliverySafety {
  import opened Json
  import opened Importer
  import opened DeliveryBranch
  import opened Delivery

  /** The protocol's state, with the history the claims are about: every commit main has been,
      every row a successful push carried, every key a successful run reported as delivered,
      and whether any import ever left files behind outside the ledger. */
  datatype System = System(remote: Remote, clones: map<nat, Clone>, payload: seq<Value>,
                           mains: set<Sha>, offered: set<Value>, delivered: set<string>, strayed: bool)

  datatype Label =
    | Grow(rows: seq<Value>)
    | OpenRun(run: nat, payload: seq<Value>)
    | SeedRun(run: nat, fetched: bool, readable: bool)
    | ImportRun(run: nat, clock: int, stray: map<string, string>)
    | SettleRun(run: nat, sha: Sha)
    | MergeRun(run: nat, rest: map<string, string>, sha: Sha)
    | MainMoves(sha: Sha, tree: Tree)
    | DropBranch

  function Ledger(objects: map<Sha, Commit>, sha: Sha): seq<Record> {
    if sha in objects then objects[sha].tree.ledger else []
  }

  function KeySet(imp: Importer<string>, ledger: seq<Record>): set<string> {
    set i | 0 <= i < |ledger| && imp.keyOf(ledger[i]).Some? :: imp.keyOf(ledger[i]).value
  }

  function Rows(payload: seq<Value>): set<Value> {
    set row | row in payload
  }

  /** Some row of `rows` builds a record under this key. */
  ghost predicate Builds(imp: Importer<string>, rows: set<Value>, key: string) {
    exists row, clock :: row in rows && imp.build(row, clock).Some? && imp.build(row, clock).value.key == key
  }

  ghost predicate Enabled(dest: Destination, s: System, l: Label) {
    match l
    case Grow(_) => true
    case OpenRun(run, payload) =>
      run !in s.clones && s.remote.main in s.remote.objects && Rows(payload) <= Rows(s.payload)
    case SeedRun(run, _, _) => run in s.clones && s.clones[run].phase == Cloned
    case ImportRun(run, _, _) => run in s.clones && s.clones[run].phase == Seeded
    case SettleRun(run, sha) => run in s.clones && s.clones[run].phase == Imported && sha !in s.remote.objects
    case MergeRun(run, rest, sha) =>
      && run in s.clones
      && (s.clones[run].phase == Settled(Adopted) || s.clones[run].phase == Settled(Pushed))
      && MergeAllowed(s.remote, s.clones[run].head, rest)
      && sha !in s.remote.objects
    case MainMoves(sha, tree) =>
      && sha !in s.remote.objects
      && Ledger(s.remote.objects, s.remote.main) <= tree.ledger
      && UniqueKeys(dest.importer, tree.ledger)
    case DropBranch =>
      && s.remote.branch.Some?
      && Ledger(s.remote.objects, s.remote.branch.value) <= Ledger(s.remote.objects, s.remote.main)
  }

  function Next(dest: Destination, s: System, l: Label): System {
    match l
    case Grow(rows) => s.(payload := s.payload + rows)
    case OpenRun(run, payload) =>
      if s.remote.main in s.remote.objects then s.(clones := s.clones[run := Open(s.remote, payload)]) else s
    case SeedRun(run, fetched, readable) =>
      if run in s.clones then s.(clones := s.clones[run := SeedStep(dest, s.remote, s.clones[run], fetched, readable)]) else s
    case ImportRun(run, clock, stray) =>
      if run in s.clones then
        s.(clones := s.clones[run := ImportStep(dest, s.clones[run], clock, stray)],
           strayed := s.strayed || stray != map[])
      else s
    case SettleRun(run, sha) =>
      if run in s.clones then
        var (remote, c) := SettleStep(dest, s.remote, s.clones[run], sha);
        s.(remote := remote, clones := s.clones[run := c],
           offered := if c.phase == Settled(Pushed) then s.offered + Rows(c.payload) else s.offered,
           delivered := if c.phase in {Settled(Nothing), Settled(Adopted), Settled(Pushed)}
                        then s.delivered + KeySet(dest.importer, c.work.ledger) else s.delivered)
      else s
    case MergeRun(run, rest, sha) =>
      if run in s.clones && MergeAllowed(s.remote, s.clones[run].head, rest) then
        var remote := MergeStep(s.remote, s.clones[run].head, rest, sha);
        s.(remote := remote, mains := s.mains + {remote.main})
      else s
    case MainMoves(sha, tree) =>
      s.(remote := MainStep(s.remote, sha, tree), mains := s.mains + {sha})
    case DropBranch => s.(remote := DropStep(s.remote))
  }

  /** Every label of the run is enabled where it is taken. */
  ghost predicate Legal(dest: Destination, s: System, ls: seq<Label>)
    decreases |ls|
  {
    ls != [] ==> Enabled(dest, s, ls[0]) && Legal(dest, Next(dest, s, ls[0]), ls[1..])
  }

  function Execute(dest: Destination, s: System, ls: seq<Label>): System
    decreases |ls|
  {
    if ls == [] then s else Execute(dest, Next(dest, s, ls[0]), ls[1..])
  }

  // ------------------------------------------------------------- the structural invariant

  /** One commit on top of a past main, appending to its ledger and not equal to it. */
  ghost predicate Proposal(imp: Importer<string>, objects: map<Sha, Commit>, mains: set<Sha>, strayed: bool, sha: Sha) {
    && sha in objects
    && objects[sha].parent.Some?
    && (var p := objects[sha].parent.value;
        && p in mains && p in objects
        && objects[p].tree.ledger <= objects[sha].tree.ledger
        && objects[p].tree != objects[sha].tree
        && (strayed || objects[p].tree.rest == objects[sha].tree.rest))
    && UniqueKeys(imp, objects[sha].tree.ledger)
  }

  /** The ledger an import made of `seed`: it appends, it absorbs the payload, its keys stay
      unique, every key it holds was on the seed or is built by the payload, and a seed that
      already absorbed the payload is left as it was. */
  ghost predicate Derived(imp: Importer<string>, seed: seq<Record>, payload: seq<Value>, work: seq<Record>) {
    && seed <= work
    && Absorbs(imp, work, payload)
    && UniqueKeys(imp, work)
    && (Absorbs(imp, seed, payload) ==> work == seed)
    && forall k :: HasKey(imp, work, k) ==> HasKey(imp, seed, k) || Builds(imp, Rows(payload), k)
  }

  ghost predicate TrackingOk(imp: Importer<string>, objects: map<Sha, Commit>, mains: set<Sha>, strayed: bool,
                             t: RemoteBranch) {
    t == NO_BRANCH || (t.head.Some? && Proposal(imp, objects, mains, strayed, t.head.value)
                       && t == RemoteBranch(t.head, objects[t.head.value].parent, Some(objects[t.head.value].tree)))
  }

  ghost predicate CloneOk(dest: Destination, objects: map<Sha, Commit>, mains: set<Sha>, strayed: bool, c: Clone) {
    && c.base in mains && c.base in objects
    && TrackingOk(dest.importer, objects, mains, strayed, c.tracking)
    && (c.phase == Seeded ==> c.work == objects[SeedOf(dest, objects, c).0].tree)
    && (c.phase == Imported ==>
          && Derived(dest.importer, objects[SeedOf(dest, objects, c).0].tree.ledger, c.payload, c.work.ledger)
          && (strayed || c.work.rest == objects[SeedOf(dest, objects, c).0].tree.rest))
    && (c.phase == Settled(Adopted) || c.phase == Settled(Pushed) ==>
          Proposal(dest.importer, objects, mains, strayed, c.head) && Absorbs(dest.importer, Ledger(objects, c.head), c.payload))
  }

  ghost predicate MainOk(imp: Importer<string>, remote: Remote, mains: set<Sha>) {
    && remote.main in remote.objects && remote.main in mains && mains <= remote.objects.Keys
    && (forall m :: m in mains ==> Ledger(remote.objects, m) <= Ledger(remote.objects, remote.main))
    && UniqueKeys(imp, Ledger(remote.objects, remote.main))
  }

  ghost predicate Inv(dest: Destination, s: System) {
    && MainOk(dest.importer, s.remote, s.mains)
    && (s.remote.branch.Some? ==> Proposal(dest.importer, s.remote.objects, s.mains, s.strayed, s.remote.branch.value))
    && (forall run :: run in s.clones ==> CloneOk(dest, s.remote.objects, s.mains, s.strayed, s.clones[run]))
  }

  /** Objects are only ever added; main's history and the stray flag only grow. */
  ghost predicate Grows(objects: map<Sha, Commit>, mains: set<Sha>, strayed: bool,
                        objects': map<Sha, Commit>, mains': set<Sha>, strayed': bool) {
    && (forall sha :: sha in objects ==> sha in objects' && objects'[sha] == objects[sha])
    && mains <= mains'
    && (strayed ==> strayed')
  }

  lemma SeedIsKnown(dest: Destination, objects: map<Sha, Commit>, mains: set<Sha>, strayed: bool, c: Clone)
    requires c.base in objects && TrackingOk(dest.importer, objects, mains, strayed, c.tracking)
    ensures SeedOf(dest, objects, c).0 in objects
    ensures ProposalBase(dest, objects, c).0 in objects
    ensures c.base in mains ==> ProposalBase(dest, objects, c).0 in mains
    ensures objects[ProposalBase(dest, objects, c).0].tree.ledger <= objects[SeedOf(dest, objects, c).0].tree.ledger
    ensures strayed || objects[ProposalBase(dest, objects, c).0].tree.rest == objects[SeedOf(dest, objects, c).0].tree.rest
  {
  }

  lemma SeedUnchanged(dest: Destination, objects: map<Sha, Commit>, mains: set<Sha>, strayed: bool,
                      objects': map<Sha, Commit>, c: Clone)
    requires c.base in objects && TrackingOk(dest.importer, objects, mains, strayed, c.tracking)
    requires forall sha :: sha in objects ==> sha in objects' && objects'[sha] == objects[sha]
    ensures SeedOf(dest, objects', c) == SeedOf(dest, objects, c) && ProposalBase(dest, objects', c) == ProposalBase(dest, objects, c)
  {
  }

  lemma CloneOkGrows(dest: Destination, objects: map<Sha, Commit>, mains: set<Sha>, strayed: bool,
                     objects': map<Sha, Commit>, mains': set<Sha>, strayed': bool, c: Clone)
    requires CloneOk(dest, objects, mains, strayed, c) && Grows(objects, mains, strayed, objects', mains', strayed')
    ensures CloneOk(dest, objects', mains', strayed', c)
  {
    SeedIsKnown(dest, objects, mains, strayed, c);
    SeedUnchanged(dest, objects, mains, strayed, objects', c);
  }

  /** A step that leaves the branch alone and touches at most one clone. */
  lemma InvFrame(dest: Destination, s: System, s': System, run: nat)
    requires Inv(dest, s)
    requires MainOk(dest.importer, s'.remote, s'.mains)
    requires Grows(s.remote.objects, s.mains, s.strayed, s'.remote.objects, s'.mains, s'.strayed)
    requires s'.remote.branch == s.remote.branch ||
             (s'.remote.branch.Some? ==> Proposal(dest.importer, s'.remote.objects, s'.mains, s'.strayed, s'.remote.branch.value))
    requires forall r :: r in s'.clones && r != run ==> r in s.clones && s'.clones[r] == s.clones[r]
    requires run in s'.clones ==> CloneOk(dest, s'.remote.objects, s'.mains, s'.strayed, s'.clones[run])
    ensures Inv(dest, s')
  {
    forall r | r in s'.clones
      ensures CloneOk(dest, s'.remote.objects, s'.mains, s'.strayed, s'.clones[r])
    {
      if r != run {
        CloneOkGrows(dest, s.remote.objects, s.mains, s.strayed, s'.remote.objects, s'.mains, s'.strayed, s.clones[r]);
      }
    }
  }

  lemma ImportDerives(imp: Importer<string>, seed: seq<Record>, payload: seq<Value>, clock: int)
    requires Lawful(imp) && UniqueKeys(imp, seed)
    ensures Derived(imp, seed, payload, Import(imp, seed, payload, clock).ledger)
  {
    var work := Import(imp, seed, payload, clock).ledger;
    ImportConserves(imp, seed, payload, clock);
    ImportAbsorbs(imp, seed, payload, clock);
    ImportUnique(imp, seed, payload, clock);
    if Absorbs(imp, seed, payload) {
      AbsorbedImport(imp, seed, payload, clock);
    }
    forall k | HasKey(imp, work, k) ensures HasKey(imp, seed, k) || Builds(imp, Rows(payload), k) {
      var j :| 0 <= j < |work| && imp.keyOf(work[j]) == Some(k);
      if j < |seed| {
        assert imp.keyOf(seed[j]) == Some(k);
      } else {
        FreshWasBuilt(imp, seed, payload, clock, j);
        var i :| 0 <= i < |payload| && imp.build(payload[i], clock).Some? && imp.build(payload[i], clock).value.rec == work[j];
        assert payload[i] in Rows(payload);
      }
    }
  }

  lemma UniquePrefix(imp: Importer<string>, a: seq<Record>, b: seq<Record>)
    requires a <= b && UniqueKeys(imp, b)
    ensures UniqueKeys(imp, a)
  {
    assert forall i | 0 <= i < |a| :: a[i] == b[i];
  }

  lemma SeedIsUnique(dest: Destination, remote: Remote, mains: set<Sha>, strayed: bool, c: Clone)
    requires MainOk(dest.importer, remote, mains) && CloneOk(dest, remote.objects, mains, strayed, c)
    ensures SeedOf(dest, remote.objects, c).0 in remote.objects
    ensures UniqueKeys(dest.importer, remote.objects[SeedOf(dest, remote.objects, c).0].tree.ledger)
  {
    SeedIsKnown(dest, remote.objects, mains, strayed, c);
    UniquePrefix(dest.importer, Ledger(remote.objects, c.base), Ledger(remote.objects, remote.main));
  }

  lemma OpenKeepsInv(dest: Destination, s: System, run: nat, payload: seq<Value>)
    requires Inv(dest, s) && Enabled(dest, s, OpenRun(run, payload))
    ensures Inv(dest, Next(dest, s, OpenRun(run, payload)))
  {
    InvFrame(dest, s, Next(dest, s, OpenRun(run, payload)), run);
  }

  lemma SeedKeepsInv(dest: Destination, s: System, run: nat, fetched: bool, readable: bool)
    requires Inv(dest, s) && Enabled(dest, s, SeedRun(run, fetched, readable))
    ensures Inv(dest, Next(dest, s, SeedRun(run, fetched, readable)))
  {
    var c := Fetched(s.remote, s.clones[run], fetched, readable);
    SeedIsKnown(dest, s.remote.objects, s.mains, s.strayed, c);
    var done := SeedStep(dest, s.remote, s.clones[run], fetched, readable);
    assert SeedOf(dest, s.remote.objects, done) == SeedOf(dest, s.remote.objects, c);
    InvFrame(dest, s, Next(dest, s, SeedRun(run, fetched, readable)), run);
  }

  lemma ImportKeepsInv(dest: Destination, s: System, run: nat, clock: int, stray: map<string, string>)
    requires Lawful(dest.importer)
    requires Inv(dest, s) && Enabled(dest, s, ImportRun(run, clock, stray))
    ensures Inv(dest, Next(dest, s, ImportRun(run, clock, stray)))
  {
    var c := s.clones[run];
    SeedIsUnique(dest, s.remote, s.mains, s.strayed, c);
    ImportDerives(dest.importer, c.work.ledger, c.payload, clock);
    var s' := Next(dest, s, ImportRun(run, clock, stray));
    assert SeedOf(dest, s.remote.objects, s'.clones[run]) == SeedOf(dest, s.remote.objects, c);
    if stray == map[] {
      assert c.work.rest + stray == c.work.rest;
    }
    InvFrame(dest, s, s', run);
  }

  /** The commit a settling run would push is a proposal. */
  lemma CommitIsProposal(dest: Destination, s: System, c: Clone, sha: Sha)
    requires Inv(dest, s) && CloneOk(dest, s.remote.objects, s.mains, s.strayed, c)
    requires c.phase == Imported && sha !in s.remote.objects
    requires ProposalBase(dest, s.remote.objects, c).0 in s.remote.objects
    requires s.remote.objects[ProposalBase(dest, s.remote.objects, c).0].tree != c.work
    ensures Proposal(dest.importer, s.remote.objects[sha := Commit(Some(ProposalBase(dest, s.remote.objects, c).0), c.work)],
                     s.mains, s.strayed, sha)
  {
    SeedIsKnown(dest, s.remote.objects, s.mains, s.strayed, c);
  }

  /** What a settling run leaves behind: a commit on its proposal base if it pushed, and
      otherwise no trace outside its own clone. */
  lemma SettleShape(dest: Destination, s: System, c: Clone, sha: Sha)
    requires Inv(dest, s) && CloneOk(dest, s.remote.objects, s.mains, s.strayed, c)
    requires c.phase == Imported && sha !in s.remote.objects
    ensures var (remote, c') := SettleStep(dest, s.remote, c, sha);
      var base := ProposalBase(dest, s.remote.objects, c).0;
      && base in s.remote.objects && base in s.mains
      && c'.phase.Settled? && c' == c.(phase := c'.phase, head := c'.head)
      && (match c'.phase.outcome
          case Pushed =>
            && s.remote.branch == c.tracking.head && c'.head == sha && s.remote.objects[base].tree != c.work
            && remote == Remote(s.remote.objects[sha := Commit(Some(base), c.work)], s.remote.main, Some(sha))
          case PushRefused =>
            && s.remote.branch != c.tracking.head
            && remote == s.remote.(objects := s.remote.objects[sha := Commit(Some(base), c.work)])
          case Adopted =>
            && remote == s.remote && c.tracking.head == Some(c'.head) && c.tracking.tree == Some(c.work)
            && SeedOf(dest, s.remote.objects, c).1 == SEED_BRANCH
          case Nothing => remote == s.remote && c.work == s.remote.objects[base].tree
          case ContainmentRefused => remote == s.remote)
  {
    SeedIsKnown(dest, s.remote.objects, s.mains, s.strayed, c);
  }

  /** What a settling run leaves on the remote: main as it was, more objects, and a branch that is
      where it was or a new proposal. */
  lemma SettledRemoteOk(dest: Destination, s: System, c: Clone, sha: Sha)
    requires Inv(dest, s) && CloneOk(dest, s.remote.objects, s.mains, s.strayed, c)
    requires c.phase == Imported && sha !in s.remote.objects
    ensures var (remote, c') := SettleStep(dest, s.remote, c, sha);
      && MainOk(dest.importer, remote, s.mains)
      && Grows(s.remote.objects, s.mains, s.strayed, remote.objects, s.mains, s.strayed)
      && (if c'.phase == Settled(Pushed) then
            && remote.branch == Some(c'.head)
            && Proposal(dest.importer, remote.objects, s.mains, s.strayed, c'.head)
            && Ledger(remote.objects, c'.head) == c.work.ledger
          else remote.branch == s.remote.branch)
  {
    SettleShape(dest, s, c, sha);
    if SettleStep(dest, s.remote, c, sha).1.phase == Settled(Pushed) {
      CommitIsProposal(dest, s, c, sha);
    }
  }

  /** A run whose tree absorbed its payload, as every import makes it (`ImportedAbsorbs`), and that
      ends without a refusal has delivered: every key on its tree is counted, and with them every key
      its payload builds. One that was refused has delivered nothing. */
  lemma SettledIsDelivered(dest: Destination, s: System, run: nat, sha: Sha, outcome: Delivery.Outcome)
    requires run in s.clones && Absorbs(dest.importer, s.clones[run].work.ledger, s.clones[run].payload)
    requires SettleStep(dest, s.remote, s.clones[run], sha).1.phase == Settled(outcome)
    ensures outcome in {Nothing, Adopted, Pushed} ==>
      && (forall k :: k in Next(dest, s, SettleRun(run, sha)).delivered <==>
                      k in s.delivered || HasKey(dest.importer, s.clones[run].work.ledger, k))
      && (forall k :: Builds(dest.importer, Rows(s.clones[run].payload), k) ==> k in Next(dest, s, SettleRun(run, sha)).delivered)
    ensures outcome in {PushRefused, ContainmentRefused} ==> Next(dest, s, SettleRun(run, sha)).delivered == s.delivered
    ensures Next(dest, s, SettleRun(run, sha)).offered ==
            if outcome == Pushed then s.offered + Rows(s.clones[run].payload) else s.offered
  {
    AbsorbedIsThere(dest.importer, s.clones[run].work.ledger, s.clones[run].payload);
    KeySetIs(dest.importer, s.clones[run].work.ledger);
    SettledCounts(dest, s, run, sha);
  }

  lemma ImportedAbsorbs(dest: Destination, s: System, run: nat)
    requires Inv(dest, s) && run in s.clones && s.clones[run].phase == Imported
    ensures Absorbs(dest.importer, s.clones[run].work.ledger, s.clones[run].payload)
  {
    assert CloneOk(dest, s.remote.objects, s.mains, s.strayed, s.clones[run]);
  }

  lemma SettledCounts(dest: Destination, s: System, run: nat, sha: Sha)
    requires run in s.clones
    ensures var s', c := Next(dest, s, SettleRun(run, sha)), s.clones[run]; var c' := SettleStep(dest, s.remote, c, sha).1;
      && run in s'.clones && s'.clones[run] == c' && c'.work.ledger == c.work.ledger && c'.payload == c.payload
      && s'.delivered == (if c'.phase in {Settled(Nothing), Settled(Adopted), Settled(Pushed)}
                          then s.delivered + KeySet(dest.importer, c.work.ledger) else s.delivered)
      && s'.offered == (if c'.phase == Settled(Pushed) then s.offered + Rows(c.payload) else s.offered)
  {
  }

  lemma AbsorbedIsThere(imp: Importer<string>, ledger: seq<Record>, payload: seq<Value>)
    requires Absorbs(imp, ledger, payload)
    ensures forall k :: Builds(imp, Rows(payload), k) ==> HasKey(imp, ledger, k)
  {
    forall k | Builds(imp, Rows(payload), k) ensures HasKey(imp, ledger, k) {
      var row, clock :| row in Rows(payload) && imp.build(row, clock).Some? && imp.build(row, clock).value.key == k;
      var i :| 0 <= i < |payload| && payload[i] == row;
      assert imp.build(payload[i], clock).Some?;
      LookupIffHasKey(imp, ledger, k);
    }
  }

  lemma KeySetIs(imp: Importer<string>, ledger: seq<Record>)
    ensures forall k :: k in KeySet(imp, ledger) <==> HasKey(imp, ledger, k)
  {
  }

  lemma SettleKeepsInv(dest: Destination, s: System, run: nat, sha: Sha)
    requires Inv(dest, s) && Enabled(dest, s, SettleRun(run, sha))
    ensures Inv(dest, Next(dest, s, SettleRun(run, sha)))
  {
    var c, s' := s.clones[run], Next(dest, s, SettleRun(run, sha));
    SettledRemoteOk(dest, s, c, sha);
    assert CloneOk(dest, s'.remote.objects, s'.mains, s'.strayed, s'.clones[run]) by {
      SettleShape(dest, s, c, sha);
      SettledCloneOk(dest, s, s', c, s'.clones[run]);
    }
    InvFrame(dest, s, s', run);
  }

  lemma SettledCloneOk(dest: Destination, s: System, s': System, c: Clone, c': Clone)
    requires CloneOk(dest, s.remote.objects, s.mains, s.strayed, c)
    requires Grows(s.remote.objects, s.mains, s.strayed, s'.remote.objects, s'.mains, s'.strayed)
    requires c'.phase.Settled? && c' == c.(phase := c'.phase, head := c'.head)
    requires c.phase == Imported
    requires c'.phase == Settled(Adopted) ==> c.tracking.head == Some(c'.head) && c.tracking.tree == Some(c.work)
    requires c'.phase == Settled(Pushed) ==> Proposal(dest.importer, s'.remote.objects, s'.mains, s'.strayed, c'.head) &&
                                             Ledger(s'.remote.objects, c'.head) == c.work.ledger
    ensures CloneOk(dest, s'.remote.objects, s'.mains, s'.strayed, c')
  {
    CloneOkGrows(dest, s.remote.objects, s.mains, s.strayed, s'.remote.objects, s'.mains, s'.strayed, c);
  }

  lemma MergedLedger(imp: Importer<string>, s: System, head: Sha, rest: map<string, string>)
    requires MainOk(imp, s.remote, s.mains) && Proposal(imp, s.remote.objects, s.mains, s.strayed, head)
    requires MergeAllowed(s.remote, head, rest)
    ensures var p := s.remote.objects[head].parent.value;
            var merged := MergeLedger(Ledger(s.remote.objects, p), Ledger(s.remote.objects, s.remote.main), Ledger(s.remote.objects, head)).value;
            Ledger(s.remote.objects, s.remote.main) <= merged && UniqueKeys(imp, merged)
  {
  }

  lemma MergeKeepsInv(dest: Destination, s: System, run: nat, rest: map<string, string>, sha: Sha)
    requires Inv(dest, s) && Enabled(dest, s, MergeRun(run, rest, sha))
    ensures Inv(dest, Next(dest, s, MergeRun(run, rest, sha)))
    ensures Ledger(s.remote.objects, s.remote.main) <=
            Ledger(Next(dest, s, MergeRun(run, rest, sha)).remote.objects, Next(dest, s, MergeRun(run, rest, sha)).remote.main)
  {
    var s' := Next(dest, s, MergeRun(run, rest, sha));
    MergedLedger(dest.importer, s, s.clones[run].head, rest);
    MergeGrows(dest, s, run, rest, sha);
    assert MainOk(dest.importer, s'.remote, s'.mains);
    if run in s'.clones {
      CloneOkGrows(dest, s.remote.objects, s.mains, s.strayed, s'.remote.objects, s'.mains, s'.strayed, s.clones[run]);
    }
    InvFrame(dest, s, s', run);
  }

  lemma MainKeepsInv(dest: Destination, s: System, sha: Sha, tree: Tree)
    requires Inv(dest, s) && Enabled(dest, s, MainMoves(sha, tree))
    ensures Inv(dest, Next(dest, s, MainMoves(sha, tree)))
  {
    var s' := Next(dest, s, MainMoves(sha, tree));
    assert MainOk(dest.importer, s'.remote, s'.mains);
    if 0 in s'.clones {
      CloneOkGrows(dest, s.remote.objects, s.mains, s.strayed, s'.remote.objects, s'.mains, s'.strayed, s.clones[0]);
    }
    InvFrame(dest, s, s', 0);
  }

  /** Along any step every object stays what it is, and main's ledger only grows. */
  lemma MainGrows(dest: Destination, s: System, l: Label)
    requires Inv(dest, s) && Enabled(dest, s, l)
    ensures var r, r' := s.remote, Next(dest, s, l).remote;
      && (forall sha :: sha in r.objects ==> sha in r'.objects && r'.objects[sha] == r.objects[sha])
      && Ledger(r.objects, r.main) <= Ledger(r'.objects, r'.main)
  {
    match l
    case SettleRun(run, sha) => SettleShape(dest, s, s.clones[run], sha);
    case MergeRun(run, rest, sha) => MergeGrows(dest, s, run, rest, sha);
    case _ =>
  }

  lemma MergeGrows(dest: Destination, s: System, run: nat, rest: map<string, string>, sha: Sha)
    requires Inv(dest, s) && Enabled(dest, s, MergeRun(run, rest, sha))
    ensures var r, r' := s.remote, MergeStep(s.remote, s.clones[run].head, rest, sha);
      && (forall o :: o in r.objects ==> o in r'.objects && r'.objects[o] == r.objects[o])
      && Ledger(r.objects, r.main) <= Ledger(r'.objects, r'.main)
  {
    assert CloneOk(dest, s.remote.objects, s.mains, s.strayed, s.clones[run]);
    MergedLedger(dest.importer, s, s.clones[run].head, rest);
  }

  /** What any step leaves of a clone: its base and its payload; only its own fetch changes what it
      knows of the branch, and a settled one stays as it is. */
  ghost predicate SameRun(s: System, l: Label, c: Clone, c': Clone) {
    && c'.base == c.base && c'.payload == c.payload
    && (c'.tracking == c.tracking || (l.SeedRun? && c'.tracking == ReadRemoteBranch(s.remote)))
    && (c.phase.Settled? ==> c' == c)
    && (c'.phase == Cloned ==> c' == c || (l.SeedRun? && c'.phase == Seeded))
  }

  lemma SeedKeepsRun(dest: Destination, s: System, run: nat, fetched: bool, readable: bool)
    requires Inv(dest, s) && Enabled(dest, s, SeedRun(run, fetched, readable))
    ensures SameRun(s, SeedRun(run, fetched, readable), s.clones[run], SeedStep(dest, s.remote, s.clones[run], fetched, readable))
  {
    SeedIsKnown(dest, s.remote.objects, s.mains, s.strayed, Fetched(s.remote, s.clones[run], fetched, readable));
  }

  lemma SettleKeepsRun(dest: Destination, s: System, run: nat, sha: Sha)
    requires Inv(dest, s) && Enabled(dest, s, SettleRun(run, sha))
    ensures SameRun(s, SettleRun(run, sha), s.clones[run], SettleStep(dest, s.remote, s.clones[run], sha).1)
  {
    SettleShape(dest, s, s.clones[run], sha);
  }

  lemma StepKeepsIdentity(dest: Destination, s: System, l: Label, run: nat)
    requires Inv(dest, s) && Enabled(dest, s, l) && run in s.clones
    ensures run in Next(dest, s, l).clones
    ensures SameRun(s, l, s.clones[run], Next(dest, s, l).clones[run])
  {
    match l
    case SeedRun(r, fetched, readable) => SeedKeepsRun(dest, s, r, fetched, readable);
    case SettleRun(r, sha) => SettleKeepsRun(dest, s, r, sha);
    case _ =>
  }

  lemma StepKeepsInv(dest: Destination, s: System, l: Label)
    requires Lawful(dest.importer) && Inv(dest, s) && Enabled(dest, s, l)
    ensures Inv(dest, Next(dest, s, l))
  {
    match l
    case Grow(_) => InvFrame(dest, s, Next(dest, s, l), 0);
    case OpenRun(run, payload) => OpenKeepsInv(dest, s, run, payload);
    case SeedRun(run, fetched, readable) => SeedKeepsInv(dest, s, run, fetched, readable);
    case ImportRun(run, clock, stray) => ImportKeepsInv(dest, s, run, clock, stray);
    case SettleRun(run, sha) => SettleKeepsInv(dest, s, run, sha);
    case MergeRun(run, rest, sha) => MergeKeepsInv(dest, s, run, rest, sha);
    case MainMoves(sha, tree) => MainKeepsInv(dest, s, sha, tree);
    case DropBranch =>
      var s' := Next(dest, s, l);
      assert MainOk(dest.importer, s'.remote, s'.mains);
      InvFrame(dest, s, s', 0);
  }

  /** A destination no run has touched yet. */
  ghost predicate Initial(dest: Destination, s: System) {
    && s.remote.main in s.remote.objects && s.remote.branch == None
    && UniqueKeys(dest.importer, Ledger(s.remote.objects, s.remote.main))
    && s.clones == map[] && s.mains == {s.remote.main}
    && s.offered == {} && s.delivered == {} && !s.strayed
  }

  lemma InitialInv(dest: Destination, s: System)
    requires Initial(dest, s)
    ensures Inv(dest, s)
  {
  }

  /** The protocol invariant holds over every run. */
  lemma {:induction false} RunKeepsInv(dest: Destination, s: System, ls: seq<Label>)
    requires Lawful(dest.importer) && Inv(dest, s) && Legal(dest, s, ls)
    ensures Inv(dest, Execute(dest, s, ls))
    decreases |ls|
  {
    if ls != [] {
      StepKeepsInv(dest, s, ls[0]);
      RunKeepsInv(dest, Next(dest, s, ls[0]), ls[1..]);
    }
  }
}
