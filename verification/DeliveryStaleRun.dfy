/** The hypothesis of `NoWagerIsLost` is needed: a run that captured its payload before another
    run's push, on an older main, replaces that push without its rows. */
module DeliveryStaleRun {
  import opened Json
  import opened Importer
  import opened DeliveryBranch
  import opened Delivery
  import opened DeliverySafety
  import opened DeliveryConservation

  /** A one-field ledger: a row is a string, filed under itself. */
  function Plain(): Importer<string> {
    Importer(
      (row: Value, clock: int) => if row.Str? then Some(Built(row.s, row.s, map["key" := row])) else None,
      (rec: Record) => if Get(rec, "key").Str? then Some(Get(rec, "key").s) else None,
      (stored: Record, incoming: Record) => [],
      (row: Value) => None)
  }

  function Rec(key: string): Record {
    map["key" := Str(key)]
  }

  const DEST := Destination(Plain(), "data/wagers.jsonl", {"data/wagers.jsonl"}, ["data/"])

  const ROOT := Commit(None, Tree([], map[]))

  const START := System(Remote(map[0 := ROOT], 0, None), map[], [], {0}, {}, {}, false)

  /** Run 1 captures [a] on the old main; main gains x; run 2 delivers [a, b] on it; then run 1
      reads that branch, finds its own base's ledger different, and rebuilds. */
  const OPENING := [Grow(A), OpenRun(1, A), MainMoves(1, MOVED), Grow([Str("b")]), OpenRun(2, AB)]
  const SECOND_RUN := [SeedRun(2, true, true), ImportRun(2, 0, map[]), SettleRun(2, 2)]
  const FIRST_RUN := [SeedRun(1, true, true), ImportRun(1, 0, map[]), SettleRun(1, 3)]
  const STALE_RUN := OPENING + SECOND_RUN + FIRST_RUN

  lemma PlainIsLawful()
    ensures Lawful(Plain())
  {
  }

  lemma StartIsInitial()
    ensures Initial(DEST, START)
  {
  }

  lemma ImportsBoth()
    ensures Import(Plain(), [Rec("x")], [Str("a"), Str("b")], 0).ledger == [Rec("x"), Rec("a"), Rec("b")]
    ensures Import(Plain(), [], [Str("a")], 0).ledger == [Rec("a")]
  {
    var imp := Plain();
    assert [Str("a"), Str("b")][..1] == [Str("a")] && [Str("a")][..0] == [];
    var one := Import(imp, [Rec("x")], [Str("a")], 0);
    assert Lookup(imp, [Rec("x")], "a") == None by {
      assert [Rec("x")][..0] == [];
    }
    assert one.ledger == [Rec("x"), Rec("a")];
    assert Lookup(imp, [Rec("x"), Rec("a")], "b") == None by {
      assert [Rec("x"), Rec("a")][..1] == [Rec("x")] && [Rec("x")][..0] == [];
    }
  }

  const MOVED := Tree([Rec("x")], map[])
  const PAIR := Tree([Rec("x"), Rec("a"), Rec("b")], map[])
  const SOLO := Tree([Rec("a")], map[])

  const A := [Str("a")]
  const AB := [Str("a"), Str("b")]

  /** The destination before main moves, after it moved, after run 2's push and after run 1's. */
  const R0 := Remote(map[0 := ROOT], 0, None)
  const R1 := Remote(map[0 := ROOT, 1 := Commit(Some(0), MOVED)], 1, None)
  const R2 := Remote(map[0 := ROOT, 1 := Commit(Some(0), MOVED), 2 := Commit(Some(1), PAIR)], 1, Some(2))
  const R3 := Remote(map[0 := ROOT, 1 := Commit(Some(0), MOVED), 2 := Commit(Some(1), PAIR), 3 := Commit(Some(0), SOLO)], 1, Some(3))

  const FETCHED := RemoteBranch(Some(2), Some(1), Some(PAIR))

  const FIRST := Clone(Cloned, A, 0, NO_BRANCH, true, ROOT.tree, 0)
  const FIRST_SEEDED := Clone(Seeded, A, 0, FETCHED, true, ROOT.tree, 0)
  const FIRST_IMPORTED := Clone(Imported, A, 0, FETCHED, true, SOLO, 0)
  const FIRST_PUSHED := Clone(Settled(Pushed), A, 0, FETCHED, true, SOLO, 3)

  const SECOND := Clone(Cloned, AB, 1, NO_BRANCH, true, MOVED, 1)
  const SECOND_SEEDED := Clone(Seeded, AB, 1, NO_BRANCH, true, MOVED, 1)
  const SECOND_IMPORTED := Clone(Imported, AB, 1, NO_BRANCH, true, PAIR, 1)
  const SECOND_PUSHED := Clone(Settled(Pushed), AB, 1, NO_BRANCH, true, PAIR, 2)

  const S1 := System(R0, map[], A, {0}, {}, {}, false)
  const S2 := System(R0, map[1 := FIRST], A, {0}, {}, {}, false)
  const S3 := System(R1, map[1 := FIRST], A, {0, 1}, {}, {}, false)
  const S4 := System(R1, map[1 := FIRST], AB, {0, 1}, {}, {}, false)
  const S5 := System(R1, map[1 := FIRST, 2 := SECOND], AB, {0, 1}, {}, {}, false)
  const S6 := System(R1, map[1 := FIRST, 2 := SECOND_SEEDED], AB, {0, 1}, {}, {}, false)
  const S7 := System(R1, map[1 := FIRST, 2 := SECOND_IMPORTED], AB, {0, 1}, {}, {}, false)
  const DELIVERED := System(R2, map[1 := FIRST, 2 := SECOND_PUSHED], AB, {0, 1}, {Str("a"), Str("b")}, {"x", "a", "b"}, false)
  const S9 := System(R2, map[1 := FIRST_SEEDED, 2 := SECOND_PUSHED], AB, {0, 1}, {Str("a"), Str("b")}, {"x", "a", "b"}, false)
  const S10 := System(R2, map[1 := FIRST_IMPORTED, 2 := SECOND_PUSHED], AB, {0, 1}, {Str("a"), Str("b")}, {"x", "a", "b"}, false)
  const LOST := System(R3, map[1 := FIRST_PUSHED, 2 := SECOND_PUSHED], AB, {0, 1}, {Str("a"), Str("b")}, {"x", "a", "b"}, false)

  lemma Contains(a: Tree, b: Tree)
    requires a.rest == map[] && b.rest == map[]
    ensures Uncommittable(StagedPaths(DEST.ledgerPath, a, b), DEST.prefixes) == Some({})
  {
    assert DEST.prefixes[0] == "data/" && "data/" <= DEST.ledgerPath;
    assert Contained(DEST.ledgerPath, DEST.prefixes);
    var staged := StagedPaths(DEST.ledgerPath, a, b);
    assert staged <= {DEST.ledgerPath};
    assert (set path | path in staged && !LedgerFile.Blank(path) && !Contained(path, DEST.prefixes)) == {};
  }

  /** `ls` can be taken from `s` and ends in `t`. */
  ghost predicate Leads(s: System, ls: seq<Label>, t: System) {
    Legal(DEST, s, ls) && Execute(DEST, s, ls) == t
  }

  lemma Leads1(s: System, l: Label, t: System)
    requires Enabled(DEST, s, l) && Next(DEST, s, l) == t
    ensures Leads(s, [l], t)
  {
    assert [l][1..] == [];
  }

  lemma {:induction false} LeadsOn(s: System, a: seq<Label>, t: System, b: seq<Label>, u: System)
    requires Leads(s, a, t) && Leads(t, b, u)
    ensures Leads(s, a + b, u)
    decreases |a|
  {
    if a == [] {
      assert a + b == b;
    } else {
      assert (a + b)[1..] == a[1..] + b;
      LeadsOn(Next(DEST, s, a[0]), a[1..], t, b, u);
    }
  }

  lemma Opening()
    ensures Leads(START, [Grow(A), OpenRun(1, A), MainMoves(1, MOVED), Grow([Str("b")]), OpenRun(2, AB)], S5)
  {
    assert Next(DEST, START, Grow(A)) == S1;
    assert Next(DEST, S1, OpenRun(1, A)) == S2;
    assert Next(DEST, S2, MainMoves(1, MOVED)) == S3;
    assert Next(DEST, S3, Grow([Str("b")])) == S4;
    assert Next(DEST, S4, OpenRun(2, AB)) == S5;
    Leads1(START, Grow(A), S1);
    Leads1(S1, OpenRun(1, A), S2);
    Leads1(S2, MainMoves(1, MOVED), S3);
    Leads1(S3, Grow([Str("b")]), S4);
    Leads1(S4, OpenRun(2, AB), S5);
    LeadsOn(S3, [Grow([Str("b")])], S4, [OpenRun(2, AB)], S5);
    LeadsOn(S2, [MainMoves(1, MOVED)], S3, [Grow([Str("b")]), OpenRun(2, AB)], S5);
    LeadsOn(S1, [OpenRun(1, A)], S2, [MainMoves(1, MOVED), Grow([Str("b")]), OpenRun(2, AB)], S5);
    LeadsOn(START, [Grow(A)], S1, [OpenRun(1, A), MainMoves(1, MOVED), Grow([Str("b")]), OpenRun(2, AB)], S5);
  }

  lemma SecondSettles()
    ensures Leads(S7, [SettleRun(2, 2)], DELIVERED)
  {
    Contains(MOVED, PAIR);
    assert SettleStep(DEST, R1, SECOND_IMPORTED, 2) == (R2, SECOND_PUSHED);
    assert Rows(AB) == {Str("a"), Str("b")};
    assert KeySet(DEST.importer, PAIR.ledger) == {"x", "a", "b"} by {
      assert DEST.importer.keyOf(PAIR.ledger[0]) == Some("x");
      assert DEST.importer.keyOf(PAIR.ledger[1]) == Some("a");
      assert DEST.importer.keyOf(PAIR.ledger[2]) == Some("b");
    }
    assert Next(DEST, S7, SettleRun(2, 2)) == DELIVERED;
    Leads1(S7, SettleRun(2, 2), DELIVERED);
  }

  lemma SecondSeeds()
    ensures Leads(S5, [SeedRun(2, true, true)], S6)
  {
    assert SeedStep(DEST, R1, SECOND, true, true) == SECOND_SEEDED;
    assert Next(DEST, S5, SeedRun(2, true, true)) == S6;
    Leads1(S5, SeedRun(2, true, true), S6);
  }

  lemma SecondBuilds()
    ensures ImportStep(DEST, SECOND_SEEDED, 0, map[]) == SECOND_IMPORTED
  {
    ImportsBoth();
  }

  lemma SecondImports()
    ensures Leads(S6, [ImportRun(2, 0, map[])], S7)
  {
    SecondBuilds();
    assert Next(DEST, S6, ImportRun(2, 0, map[])) == S7;
    Leads1(S6, ImportRun(2, 0, map[]), S7);
  }

  lemma SecondRuns()
    ensures Leads(S5, [SeedRun(2, true, true), ImportRun(2, 0, map[]), SettleRun(2, 2)], DELIVERED)
  {
    SecondSeeds();
    SecondImports();
    SecondSettles();
    LeadsOn(S6, [ImportRun(2, 0, map[])], S7, [SettleRun(2, 2)], DELIVERED);
    LeadsOn(S5, [SeedRun(2, true, true)], S6, [ImportRun(2, 0, map[]), SettleRun(2, 2)], DELIVERED);
  }

  lemma FirstSettles()
    ensures Leads(S10, [SettleRun(1, 3)], LOST)
  {
    Contains(ROOT.tree, SOLO);
    assert SettleStep(DEST, R2, FIRST_IMPORTED, 3) == (R3, FIRST_PUSHED);
    assert KeySet(DEST.importer, SOLO.ledger) == {"a"} by {
      assert DEST.importer.keyOf(SOLO.ledger[0]) == Some("a");
    }
    assert Next(DEST, S10, SettleRun(1, 3)) == LOST;
    Leads1(S10, SettleRun(1, 3), LOST);
  }

  lemma FirstSeeds()
    ensures Leads(DELIVERED, [SeedRun(1, true, true)], S9)
  {
    assert SeedStep(DEST, R2, FIRST, true, true) == FIRST_SEEDED;
    assert Next(DEST, DELIVERED, SeedRun(1, true, true)) == S9;
    Leads1(DELIVERED, SeedRun(1, true, true), S9);
  }

  lemma FirstBuilds()
    ensures ImportStep(DEST, FIRST_SEEDED, 0, map[]) == FIRST_IMPORTED
  {
    ImportsBoth();
  }

  lemma FirstImports()
    ensures Leads(S9, [ImportRun(1, 0, map[])], S10)
  {
    FirstBuilds();
    assert Next(DEST, S9, ImportRun(1, 0, map[])) == S10;
    Leads1(S9, ImportRun(1, 0, map[]), S10);
  }

  lemma FirstRuns()
    ensures Leads(DELIVERED, [SeedRun(1, true, true), ImportRun(1, 0, map[]), SettleRun(1, 3)], LOST)
  {
    FirstSeeds();
    FirstImports();
    FirstSettles();
    LeadsOn(S9, [ImportRun(1, 0, map[])], S10, [SettleRun(1, 3)], LOST);
    LeadsOn(DELIVERED, [SeedRun(1, true, true)], S9, [ImportRun(1, 0, map[]), SettleRun(1, 3)], LOST);
  }

  lemma BIsLost()
    ensures !NothingLost(DEST, LOST)
  {
    assert "b" in LOST.delivered;
    assert Ledger(R3.objects, 1) == [Rec("x")] && Ledger(R3.objects, 3) == [Rec("a")];
    assert !OnMain(DEST.importer, R3, "b") && !OnBranch(DEST.importer, R3, "b");
  }

  lemma Compose(s: System, a: seq<Label>, t: System, b: seq<Label>, u: System, c: seq<Label>, v: System)
    requires Leads(s, a, t) && Leads(t, b, u) && Leads(u, c, v)
    ensures Legal(DEST, s, a + b + c) && Execute(DEST, s, a + b + c) == v
  {
    LeadsOn(s, a, t, b, u);
    LeadsOn(s, a + b, u, c, v);
  }

  /** Without a fresh payload a delivered wager is lost, although every push held its lease. */
  lemma StalePayloadLosesAWager()
    ensures Lawful(DEST.importer) && Initial(DEST, START) && Legal(DEST, START, STALE_RUN)
    ensures !NothingLost(DEST, Execute(DEST, START, STALE_RUN))
  {
    PlainIsLawful();
    StartIsInitial();
    Opening();
    SecondRuns();
    FirstRuns();
    BIsLost();
    Compose(START, OPENING, S5, SECOND_RUN, DELIVERED, FIRST_RUN, LOST);
  }
}
