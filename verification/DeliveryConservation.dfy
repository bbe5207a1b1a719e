/** No accepted wager is lost: what the interleaved runs of the protocol keep on the remote, the
    exact condition under which one push keeps a key, and a run that violates it. */
module DeliveryConservation {
  import opened Json
  import opened Importer
  import opened DeliveryBranch
  import opened Delivery
  import opened DeliverySafety

  ghost predicate OnMain(imp: Importer<string>, remote: Remote, k: string) {
    HasKey(imp, Ledger(remote.objects, remote.main), k)
  }

  ghost predicate OnBranch(imp: Importer<string>, remote: Remote, k: string) {
    remote.branch.Some? && HasKey(imp, Ledger(remote.objects, remote.branch.value), k)
  }

  /** The hypothesis on a run that reads the branch: its payload contains every row a push has
      carried so far. Payloads only grow, so it can fail only for a payload captured before
      another run's push. */
  ghost predicate FreshPayload(s: System, l: Label) {
    l.SeedRun? && l.run in s.clones ==> s.offered <= Rows(s.clones[l.run].payload)
  }

  ghost predicate AllFresh(dest: Destination, s: System, ls: seq<Label>)
    decreases |ls|
  {
    ls != [] ==> FreshPayload(s, ls[0]) && AllFresh(dest, Next(dest, s, ls[0]), ls[1..])
  }

  /** Every key any run reported as delivered is on main or on the branch. */
  ghost predicate NothingLost(dest: Destination, s: System) {
    forall k :: k in s.delivered ==> OnMain(dest.importer, s.remote, k) || OnBranch(dest.importer, s.remote, k)
  }

  /** Every key on this ledger is on main, or is built by one of `rows`. */
  ghost predicate Covered(imp: Importer<string>, remote: Remote, sha: Sha, rows: set<Value>) {
    forall k :: HasKey(imp, Ledger(remote.objects, sha), k) ==> OnMain(imp, remote, k) || Builds(imp, rows, k)
  }

  /** Every key on this ledger has been reported as delivered. */
  ghost predicate Reported(imp: Importer<string>, remote: Remote, sha: Sha, delivered: set<string>) {
    forall k :: HasKey(imp, Ledger(remote.objects, sha), k) ==> k in delivered
  }

  ghost predicate CloneCovered(imp: Importer<string>, remote: Remote, delivered: set<string>, c: Clone) {
    && (c.phase == Cloned ==> c.tracking.head.None?)
    && (c.tracking.head.Some? ==> Reported(imp, remote, c.tracking.head.value, delivered))
    && (!c.phase.Settled? && c.tracking.head.Some? ==> Covered(imp, remote, c.tracking.head.value, Rows(c.payload)))
  }

  ghost predicate Conserved(dest: Destination, s: System) {
    && NothingLost(dest, s)
    && (s.remote.branch.Some? ==>
          && Covered(dest.importer, s.remote, s.remote.branch.value, s.offered)
          && Reported(dest.importer, s.remote, s.remote.branch.value, s.delivered))
    && (forall run :: run in s.clones ==> CloneCovered(dest.importer, s.remote, s.delivered, s.clones[run]))
  }

  lemma PrefixKeys(imp: Importer<string>, a: seq<Record>, b: seq<Record>, k: string)
    requires a <= b && HasKey(imp, a, k)
    ensures HasKey(imp, b, k)
  {
    var i :| 0 <= i < |a| && imp.keyOf(a[i]) == Some(k);
    assert b[i] == a[i];
  }

  lemma KeySetIff(imp: Importer<string>, ledger: seq<Record>, k: string)
    ensures k in KeySet(imp, ledger) <==> HasKey(imp, ledger, k)
  {
  }

  lemma CoveredGrows(imp: Importer<string>, remote: Remote, remote': Remote, sha: Sha, rows: set<Value>,
                     rows': set<Value>)
    requires Covered(imp, remote, sha, rows) && rows <= rows'
    requires sha in remote.objects && sha in remote'.objects && remote'.objects[sha] == remote.objects[sha]
    requires Ledger(remote.objects, remote.main) <= Ledger(remote'.objects, remote'.main)
    ensures Covered(imp, remote', sha, rows')
  {
    forall k | HasKey(imp, Ledger(remote'.objects, sha), k) ensures OnMain(imp, remote', k) || Builds(imp, rows', k) {
      if OnMain(imp, remote, k) {
        PrefixKeys(imp, Ledger(remote.objects, remote.main), Ledger(remote'.objects, remote'.main), k);
      } else {
        var row, clock :| row in rows && imp.build(row, clock).Some? && imp.build(row, clock).value.key == k;
        assert row in rows';
      }
    }
  }

  /** Everything but a successful push leaves the branch where it is, or drops what main holds. */
  lemma QuietStepConserves(dest: Destination, s: System, l: Label)
    requires Lawful(dest.importer) && Inv(dest, s) && Conserved(dest, s) && Enabled(dest, s, l) && FreshPayload(s, l)
    requires !l.SettleRun?
    ensures Conserved(dest, Next(dest, s, l))
  {
    var imp, s' := dest.importer, Next(dest, s, l);
    MainGrows(dest, s, l);
    forall k | k in s'.delivered ensures OnMain(imp, s'.remote, k) || OnBranch(imp, s'.remote, k) {
      if OnMain(imp, s.remote, k) {
        PrefixKeys(imp, Ledger(s.remote.objects, s.remote.main), Ledger(s'.remote.objects, s'.remote.main), k);
      } else if l.DropBranch? {
        PrefixKeys(imp, Ledger(s.remote.objects, s.remote.branch.value), Ledger(s.remote.objects, s.remote.main), k);
      }
    }
    if s'.remote.branch.Some? {
      CoveredGrows(imp, s.remote, s'.remote, s.remote.branch.value, s.offered, s.offered);
    }
    forall run | run in s'.clones ensures CloneCovered(imp, s'.remote, s'.delivered, s'.clones[run]) {
      QuietCloneCovered(dest, s, l, run);
    }
  }

  lemma QuietCloneCovered(dest: Destination, s: System, l: Label, run: nat)
    requires Lawful(dest.importer) && Inv(dest, s) && Conserved(dest, s) && Enabled(dest, s, l) && FreshPayload(s, l)
    requires !l.SettleRun? && run in Next(dest, s, l).clones
    ensures CloneCovered(dest.importer, Next(dest, s, l).remote, Next(dest, s, l).delivered, Next(dest, s, l).clones[run])
  {
    MainGrows(dest, s, l);
    if run in s.clones {
      StepKeepsIdentity(dest, s, l, run);
      var c, c' := s.clones[run], Next(dest, s, l).clones[run];
      assert CloneCovered(dest.importer, s.remote, s.delivered, c);
      assert TrackingOk(dest.importer, s.remote.objects, s.mains, s.strayed, c.tracking);
      if !c'.phase.Settled? && c'.tracking.head.Some? {
        StillCovered(dest, s, l, c, c');
      }
    }
  }

  lemma StillCovered(dest: Destination, s: System, l: Label, c: Clone, c': Clone)
    requires Inv(dest, s) && Conserved(dest, s) && Enabled(dest, s, l) && !c'.phase.Settled? && c'.tracking.head.Some?
    requires CloneCovered(dest.importer, s.remote, s.delivered, c) && !c.phase.Settled? && c'.payload == c.payload
    requires TrackingOk(dest.importer, s.remote.objects, s.mains, s.strayed, c.tracking)
    requires c'.tracking == c.tracking || (c'.tracking == ReadRemoteBranch(s.remote) && s.offered <= Rows(c.payload))
    ensures Covered(dest.importer, Next(dest, s, l).remote, c'.tracking.head.value, Rows(c'.payload))
  {
    MainGrows(dest, s, l);
    var rows := if c'.tracking == c.tracking then Rows(c.payload) else s.offered;
    CoveredGrows(dest.importer, s.remote, Next(dest, s, l).remote, c'.tracking.head.value, rows, Rows(c.payload));
  }

  /** One push, exactly: a key of the branch it replaces survives if and only if the run kept
      that branch, or its base already held the key, or its payload builds it. */
  lemma PushKeepsKeyIff(dest: Destination, s: System, run: nat, sha: Sha, k: string)
    requires Lawful(dest.importer) && Inv(dest, s) && Enabled(dest, s, SettleRun(run, sha))
    requires s.remote.branch.Some? && OnBranch(dest.importer, s.remote, k)
    requires Next(dest, s, SettleRun(run, sha)).clones[run].phase == Settled(Pushed)
    ensures OnBranch(dest.importer, Next(dest, s, SettleRun(run, sha)).remote, k) <==>
      || SeedOf(dest, s.remote.objects, s.clones[run]).1 == SEED_BRANCH
      || HasKey(dest.importer, Ledger(s.remote.objects, s.clones[run].base), k)
      || Builds(dest.importer, Rows(s.clones[run].payload), k)
  {
    var imp, c := dest.importer, s.clones[run];
    SettleShape(dest, s, c, sha);
    SeedIsKnown(dest, s.remote.objects, s.mains, s.strayed, c);
    var seed := s.remote.objects[SeedOf(dest, s.remote.objects, c).0].tree.ledger;
    if HasKey(imp, seed, k) {
      PrefixKeys(imp, seed, c.work.ledger, k);
    }
    if Builds(imp, Rows(c.payload), k) {
      BuiltIsAbsorbed(imp, c.work.ledger, c.payload, k);
    }
  }

  lemma BuiltIsAbsorbed(imp: Importer<string>, ledger: seq<Record>, payload: seq<Value>, k: string)
    requires Absorbs(imp, ledger, payload) && Builds(imp, Rows(payload), k)
    ensures HasKey(imp, ledger, k)
  {
    var row, clock :| row in Rows(payload) && imp.build(row, clock).Some? && imp.build(row, clock).value.key == k;
    var i :| 0 <= i < |payload| && payload[i] == row;
    LookupIffHasKey(imp, ledger, k);
  }

  /** Nothing that was delivered is dropped by a push, and what it delivers is on its own head. */
  lemma PushConserves(dest: Destination, s: System, run: nat, sha: Sha)
    requires Lawful(dest.importer) && Inv(dest, s) && Conserved(dest, s) && Enabled(dest, s, SettleRun(run, sha))
    requires Next(dest, s, SettleRun(run, sha)).clones[run].phase == Settled(Pushed)
    ensures var s' := Next(dest, s, SettleRun(run, sha));
            NothingLost(dest, s') && Covered(dest.importer, s'.remote, sha, s'.offered) && s'.remote.branch == Some(sha)
  {
    var imp, c, s' := dest.importer, s.clones[run], Next(dest, s, SettleRun(run, sha));
    SettleShape(dest, s, c, sha);
    SeedIsKnown(dest, s.remote.objects, s.mains, s.strayed, c);
    assert Ledger(s'.remote.objects, s'.remote.main) == Ledger(s.remote.objects, s.remote.main);
    assert Ledger(s'.remote.objects, sha) == c.work.ledger;
    assert CloneCovered(imp, s.remote, s.delivered, c);
    forall k | k in s'.delivered ensures OnMain(imp, s'.remote, k) || OnBranch(imp, s'.remote, k) {
      KeySetIff(imp, c.work.ledger, k);
      if k in s.delivered && !OnMain(imp, s.remote, k) {
        assert Builds(imp, Rows(c.payload), k);
        BuiltIsAbsorbed(imp, c.work.ledger, c.payload, k);
      }
    }
    forall k | HasKey(imp, c.work.ledger, k) ensures OnMain(imp, s'.remote, k) || Builds(imp, s'.offered, k) {
      SeedCovered(dest, s, c, k);
      if Builds(imp, Rows(c.payload), k) {
        var row, clock :| row in Rows(c.payload) && imp.build(row, clock).Some? && imp.build(row, clock).value.key == k;
        assert row in s'.offered;
      }
    }
  }

  /** A key of an imported clone's ledger is on main or built by the clone's payload. */
  lemma SeedCovered(dest: Destination, s: System, c: Clone, k: string)
    requires Inv(dest, s) && CloneOk(dest, s.remote.objects, s.mains, s.strayed, c)
    requires CloneCovered(dest.importer, s.remote, s.delivered, c) && c.phase == Imported
    requires HasKey(dest.importer, c.work.ledger, k)
    ensures OnMain(dest.importer, s.remote, k) || Builds(dest.importer, Rows(c.payload), k)
  {
    var imp := dest.importer;
    SeedIsKnown(dest, s.remote.objects, s.mains, s.strayed, c);
    var (seed, why) := SeedOf(dest, s.remote.objects, c);
    if HasKey(imp, s.remote.objects[seed].tree.ledger, k) && why == SEED_MAIN {
      PrefixKeys(imp, Ledger(s.remote.objects, c.base), Ledger(s.remote.objects, s.remote.main), k);
    }
  }

  /** A settling run that does not push reports only what main or the branch already holds. */
  lemma OtherSettleConserves(dest: Destination, s: System, run: nat, sha: Sha)
    requires Lawful(dest.importer) && Inv(dest, s) && Conserved(dest, s) && Enabled(dest, s, SettleRun(run, sha))
    requires Next(dest, s, SettleRun(run, sha)).clones[run].phase != Settled(Pushed)
    ensures NothingLost(dest, Next(dest, s, SettleRun(run, sha)))
  {
    var imp, c, s' := dest.importer, s.clones[run], Next(dest, s, SettleRun(run, sha));
    SettleShape(dest, s, c, sha);
    assert Ledger(s'.remote.objects, s'.remote.main) == Ledger(s.remote.objects, s.remote.main);
    forall k | k in s'.delivered ensures OnMain(imp, s'.remote, k) || OnBranch(imp, s'.remote, k) {
      KeySetIff(imp, c.work.ledger, k);
      assert CloneCovered(imp, s.remote, s.delivered, c);
      if k !in s.delivered && s'.clones[run].phase == Settled(Nothing) {
        PrefixKeys(imp, Ledger(s.remote.objects, ProposalBase(dest, s.remote.objects, c).0), Ledger(s.remote.objects, s.remote.main), k);
      }
    }
  }

  lemma SettleCloneCovered(dest: Destination, s: System, run: nat, sha: Sha, r: nat)
    requires Lawful(dest.importer) && Inv(dest, s) && Conserved(dest, s) && Enabled(dest, s, SettleRun(run, sha))
    requires r in s.clones
    ensures var s' := Next(dest, s, SettleRun(run, sha));
            CloneCovered(dest.importer, s'.remote, s'.delivered, s'.clones[r])
  {
    var imp, c, s' := dest.importer, s.clones[r], Next(dest, s, SettleRun(run, sha));
    SettleShape(dest, s, s.clones[run], sha);
    MainGrows(dest, s, SettleRun(run, sha));
    assert CloneCovered(imp, s.remote, s.delivered, c) && CloneOk(dest, s.remote.objects, s.mains, s.strayed, c);
    if !c.phase.Settled? && c.tracking.head.Some? {
      CoveredGrows(imp, s.remote, s'.remote, c.tracking.head.value, Rows(c.payload), Rows(c.payload));
    }
  }

  lemma SettleConserves(dest: Destination, s: System, run: nat, sha: Sha)
    requires Lawful(dest.importer) && Inv(dest, s) && Conserved(dest, s) && Enabled(dest, s, SettleRun(run, sha))
    ensures Conserved(dest, Next(dest, s, SettleRun(run, sha)))
  {
    var imp, c, s' := dest.importer, s.clones[run], Next(dest, s, SettleRun(run, sha));
    SettleShape(dest, s, c, sha);
    if s'.clones[run].phase == Settled(Pushed) {
      PushConserves(dest, s, run, sha);
      forall k | HasKey(imp, c.work.ledger, k) ensures k in s'.delivered {
        KeySetIff(imp, c.work.ledger, k);
      }
    } else {
      OtherSettleConserves(dest, s, run, sha);
      if s.remote.branch.Some? {
        CoveredGrows(imp, s.remote, s'.remote, s.remote.branch.value, s.offered, s.offered);
      }
    }
    forall r | r in s'.clones ensures CloneCovered(imp, s'.remote, s'.delivered, s'.clones[r]) {
      SettleCloneCovered(dest, s, run, sha, r);
    }
  }

  lemma StepConserves(dest: Destination, s: System, l: Label)
    requires Lawful(dest.importer) && Inv(dest, s) && Conserved(dest, s) && Enabled(dest, s, l) && FreshPayload(s, l)
    ensures Conserved(dest, Next(dest, s, l))
  {
    if l.SettleRun? {
      SettleConserves(dest, s, l.run, l.sha);
    } else {
      QuietStepConserves(dest, s, l);
    }
  }

  /** In every reachable state of interleaved runs, merges, deletions and moves of main, every key
      a run ever reported as delivered is on main or on the branch. */
  lemma {:induction false} RunConserves(dest: Destination, s: System, ls: seq<Label>)
    requires Lawful(dest.importer) && Inv(dest, s) && Conserved(dest, s)
    requires Legal(dest, s, ls) && AllFresh(dest, s, ls)
    ensures Inv(dest, Execute(dest, s, ls)) && Conserved(dest, Execute(dest, s, ls))
    decreases |ls|
  {
    if ls != [] {
      StepKeepsInv(dest, s, ls[0]);
      StepConserves(dest, s, ls[0]);
      RunConserves(dest, Next(dest, s, ls[0]), ls[1..]);
    }
  }

  lemma NoWagerIsLost(dest: Destination, s: System, ls: seq<Label>)
    requires Lawful(dest.importer) && Initial(dest, s) && Legal(dest, s, ls) && AllFresh(dest, s, ls)
    ensures NothingLost(dest, Execute(dest, s, ls))
  {
    InitialInv(dest, s);
    RunConserves(dest, s, ls);
  }

  /** A push whose lease is stale: main, the branch and everything the next run could read stay. */
  lemma StaleLeaseChangesNothing(dest: Destination, s: System, run: nat, sha: Sha)
    requires Inv(dest, s) && Enabled(dest, s, SettleRun(run, sha))
    requires s.remote.branch != s.clones[run].tracking.head
    ensures var s' := Next(dest, s, SettleRun(run, sha));
      && s'.remote.main == s.remote.main && s'.remote.branch == s.remote.branch
      && ReadRemoteBranch(s'.remote) == ReadRemoteBranch(s.remote)
      && s'.offered == s.offered
      && s'.clones[run].phase != Settled(Pushed)
      && (s'.clones[run].phase == Settled(PushRefused) ==> s'.delivered == s.delivered)
  {
    SettleShape(dest, s, s.clones[run], sha);
  }

  // ------------------------------------------------------------- when is a payload fresh?

  /** Payloads only grow: what a run carries, and what was ever pushed, is in the payload now. */
  ghost predicate PayloadsGrow(s: System) {
    && s.offered <= Rows(s.payload)
    && (forall run :: run in s.clones ==> Rows(s.clones[run].payload) <= Rows(s.payload))
  }

  lemma StepKeepsPayloadsGrow(dest: Destination, s: System, l: Label)
    requires Inv(dest, s) && PayloadsGrow(s) && Enabled(dest, s, l)
    ensures PayloadsGrow(Next(dest, s, l))
    ensures !l.SettleRun? ==> Next(dest, s, l).offered == s.offered
  {
    match l
    case SettleRun(run, sha) => SettleShape(dest, s, s.clones[run], sha);
    case _ =>
  }

  /** Every successful push among these steps carried only rows of `rows`. */
  ghost predicate PushesOnly(dest: Destination, s: System, ls: seq<Label>, rows: set<Value>)
    decreases |ls|
  {
    ls != [] ==>
      && (ls[0].SettleRun? && ls[0].run in s.clones && Next(dest, s, ls[0]).clones[ls[0].run].phase == Settled(Pushed) ==>
            Rows(s.clones[ls[0].run].payload) <= rows)
      && PushesOnly(dest, Next(dest, s, ls[0]), ls[1..], rows)
  }

  lemma OfferedByStep(dest: Destination, s: System, l: Label)
    requires Inv(dest, s) && Enabled(dest, s, l)
    ensures Next(dest, s, l).offered ==
            if l.SettleRun? && Next(dest, s, l).clones[l.run].phase == Settled(Pushed)
            then s.offered + Rows(s.clones[l.run].payload) else s.offered
  {
    if l.SettleRun? {
      SettleShape(dest, s, s.clones[l.run], l.sha);
    }
  }

  lemma {:induction false} OfferedWithinIff(dest: Destination, s: System, ls: seq<Label>, rows: set<Value>)
    requires Lawful(dest.importer) && Inv(dest, s) && Legal(dest, s, ls)
    ensures Execute(dest, s, ls).offered <= rows <==> s.offered <= rows && PushesOnly(dest, s, ls, rows)
    decreases |ls|
  {
    if ls != [] {
      StepKeepsInv(dest, s, ls[0]);
      OfferedByStep(dest, s, ls[0]);
      OfferedWithinIff(dest, Next(dest, s, ls[0]), ls[1..], rows);
    }
  }

  /** A run that captured its payload at `s`, before it cloned, is fresh when it reads the branch
      exactly when every push made since carried only rows its payload holds. */
  lemma FreshSinceCaptureIff(dest: Destination, s: System, ls: seq<Label>, run: nat, fetched: bool, readable: bool)
    requires Lawful(dest.importer) && Inv(dest, s) && PayloadsGrow(s) && Legal(dest, s, ls)
    requires var t := Execute(dest, s, ls); run in t.clones && t.clones[run].payload == s.payload
    ensures FreshPayload(Execute(dest, s, ls), SeedRun(run, fetched, readable)) <==>
            PushesOnly(dest, s, ls, Rows(s.payload))
  {
    OfferedWithinIff(dest, s, ls, Rows(s.payload));
  }

  // ------------------------------------------------------------- one run at a time

  /** Runs that do not overlap: `current` is the run under way, and only it acts; a new one opens
      with a payload built since the last settle, when the payload held `since`. An abandoned run
      acts no more. The payload may be older than the clone. */
  ghost predicate OneAtATime(dest: Destination, s: System, ls: seq<Label>, current: Option<nat>, since: set<Value>)
    decreases |ls|
  {
    ls != [] ==>
      match ls[0]
      case OpenRun(run, payload) => since <= Rows(payload) && OneAtATime(dest, Next(dest, s, ls[0]), ls[1..], Some(run), since)
      case SeedRun(run, _, _) => current == Some(run) && OneAtATime(dest, Next(dest, s, ls[0]), ls[1..], current, since)
      case SettleRun(run, _) =>
        current == Some(run) && OneAtATime(dest, Next(dest, s, ls[0]), ls[1..], current, Rows(s.payload))
      case _ => OneAtATime(dest, Next(dest, s, ls[0]), ls[1..], current, since)
  }

  /** The run under way carries everything ever pushed. */
  ghost predicate CurrentIsFresh(s: System, current: Option<nat>, since: set<Value>) {
    && s.offered <= since
    && (current.Some? && current.value in s.clones && !s.clones[current.value].phase.Settled? ==>
          s.offered <= Rows(s.clones[current.value].payload))
  }

  lemma StepKeepsCurrentFresh(dest: Destination, s: System, l: Label, current: Option<nat>, since: set<Value>)
    requires Lawful(dest.importer) && Inv(dest, s) && PayloadsGrow(s) && CurrentIsFresh(s, current, since) && Enabled(dest, s, l)
    requires l.OpenRun? ==> since <= Rows(l.payload)
    requires l.SettleRun? ==> current == Some(l.run)
    ensures var current' := if l.OpenRun? then Some(l.run) else current;
            CurrentIsFresh(Next(dest, s, l), current', if l.SettleRun? then Rows(s.payload) else since)
  {
    OfferedByStep(dest, s, l);
    if current.Some? && current.value in s.clones {
      StepKeepsIdentity(dest, s, l, current.value);
    }
    if l.SettleRun? {
      SettleShape(dest, s, s.clones[l.run], l.sha);
    }
  }

  lemma {:induction false} OneAtATimeIsFresh(dest: Destination, s: System, ls: seq<Label>, current: Option<nat>, since: set<Value>)
    requires Lawful(dest.importer) && Inv(dest, s) && PayloadsGrow(s) && CurrentIsFresh(s, current, since)
    requires Legal(dest, s, ls) && OneAtATime(dest, s, ls, current, since)
    ensures AllFresh(dest, s, ls)
    decreases |ls|
  {
    if ls != [] {
      var l := ls[0];
      StepKeepsInv(dest, s, l);
      StepKeepsPayloadsGrow(dest, s, l);
      StepKeepsCurrentFresh(dest, s, l, current, since);
      OneAtATimeIsFresh(dest, Next(dest, s, l), ls[1..], if l.OpenRun? then Some(l.run) else current,
                        if l.SettleRun? then Rows(s.payload) else since);
    }
  }

  /** Runs that do not overlap lose nothing, with no hypothesis left on what they carry: every key
      any of them reported as delivered stays on main or on the branch. */
  lemma SerialRunsLoseNothing(dest: Destination, s: System, ls: seq<Label>)
    requires Lawful(dest.importer) && Initial(dest, s) && Legal(dest, s, ls)
    requires OneAtATime(dest, s, ls, None, {})
    ensures NothingLost(dest, Execute(dest, s, ls))
  {
    InitialInv(dest, s);
    OneAtATimeIsFresh(dest, s, ls, None, {});
    NoWagerIsLost(dest, s, ls);
  }
}
