/** What the execution-evidence ledger accepts and files, in the rows' own terms: the fields of a
    close, what makes two rows the same evidence, and the receipt each row of an import gets. */
module EvidenceRows {
  import opened Json
  import LedgerFile
  import opened Importer
  import opened EvidenceLedger

  // ------------------------------------------------------------- a CLOSE row

  /** The body says something under this name. */
  ghost predicate Says(c: Record, name: string) {
    name in c && c[name] != Null
  }

  /** A number of dollars strictly inside one contract's range. */
  ghost predicate Dollars(v: Value) {
    v.Num? && v.n > 0.0 && 1.0 > v.n
  }

  /** What is said under this name, if anything, is a price. */
  ghost predicate PriceFine(c: Record, name: string) {
    Says(c, name) ==> Dollars(c[name])
  }

  ghost predicate NoneSaid(c: Record) {
    !Says(c, "yes_bid") && !Says(c, "yes_ask") && !Says(c, "yes_mid") && !Says(c, "last_trade")
  }

  ghost predicate Moment(c: Record, name: string) {
    name in c && c[name].Num? && c[name].n > 0.0
  }

  ghost predicate Wording(c: Record, name: string) {
    name in c && c[name].Str? && c[name].s != ""
  }

  /** A close that was found: quotes on both sides or neither, not crossed, observed no later than
      its cutoff, from a named source and a whole number of minutes. */
  ghost predicate FoundClose(c: Record, quality: string) {
    && !NoneSaid(c)
    && (Says(c, "yes_bid") <==> Says(c, "yes_ask"))
    && (Says(c, "yes_bid") && Says(c, "yes_ask") && c["yes_bid"].Num? && c["yes_ask"].Num? ==> c["yes_bid"].n <= c["yes_ask"].n)
    && Moment(c, "as_of_ts") && Moment(c, "cutoff_ts") && c["as_of_ts"].n <= c["cutoff_ts"].n
    && Wording(c, "source_endpoint")
    && (exists minutes: int :: Minutes(c, minutes) && minutes >= 1 && (quality == "TRUE_CLOSE" ==> minutes <= 60))
  }

  ghost predicate Minutes(c: Record, minutes: int) {
    "period_minutes" in c && c["period_minutes"] == Num(minutes as real)
  }

  ghost predicate CloseFine(c: Record) {
    && c.Keys <= {"quality", "yes_bid", "yes_ask", "yes_mid", "last_trade", "as_of_ts", "cutoff_ts", "period_minutes",
                  "minutes_before_cutoff", "source_endpoint", "flags", "reason"}
    && PriceFine(c, "yes_bid") && PriceFine(c, "yes_ask") && PriceFine(c, "yes_mid") && PriceFine(c, "last_trade")
    && "quality" in c
    && (|| (c["quality"] == Str("MISSING") && NoneSaid(c) && Wording(c, "reason"))
        || (c["quality"] == Str("TRUE_CLOSE") && FoundClose(c, "TRUE_CLOSE"))
        || (c["quality"] == Str("EARLIER_QUOTE_PROXY") && FoundClose(c, "EARLIER_QUOTE_PROXY")))
  }

  lemma PricesAre(c: Record)
    ensures AllPricesInside(c) <==>
            PriceFine(c, "yes_bid") && PriceFine(c, "yes_ask") && PriceFine(c, "yes_mid") && PriceFine(c, "last_trade")
    ensures SomePrice(c) <==> !NoneSaid(c)
  {
    assert PRICE_FIELDS[0] == "yes_bid" && PRICE_FIELDS[1] == "yes_ask" && PRICE_FIELDS[2] == "yes_mid" && PRICE_FIELDS[3] == "last_trade";
    var ok := (i: int) requires 0 <= i < 4 => Get(c, PRICE_FIELDS[i]) == Null || IsPrice(Get(c, PRICE_FIELDS[i]));
    assert AllPricesInside(c) <==> ok(0) && ok(1) && ok(2) && ok(3);
    var said := (i: int) requires 0 <= i < 4 => Get(c, PRICE_FIELDS[i]) != Null;
    assert SomePrice(c) <==> said(0) || said(1) || said(2) || said(3);
  }

  lemma QuotedIs(c: Record, quality: string)
    requires AllPricesInside(c) && quality in {"TRUE_CLOSE", "EARLIER_QUOTE_PROXY"}
    ensures QuotedCloseOk(c, quality) <==> FoundClose(c, quality)
  {
    PricesAre(c);
    MinutesAre(c);
    if QuotedCloseOk(c, quality) {
      assert Minutes(c, Get(c, "period_minutes").n.Floor);
    }
  }

  lemma MinutesAre(c: Record)
    ensures IsWhole(Get(c, "period_minutes")) <==> exists minutes: int :: Minutes(c, minutes)
    ensures forall minutes: int :: Minutes(c, minutes) ==> Get(c, "period_minutes").n == minutes as real
    ensures forall minutes: int :: Minutes(c, minutes) ==> (Get(c, "period_minutes").n > 0.0 <==> minutes >= 1)
    ensures forall minutes: int :: Minutes(c, minutes) ==> (Get(c, "period_minutes").n <= 60.0 <==> minutes <= 60)
  {
    if IsWhole(Get(c, "period_minutes")) {
      assert Minutes(c, Get(c, "period_minutes").n.Floor);
    }
  }

  lemma CloseBodyIff(c: Record)
    ensures CloseBodyOk(c) <==> CloseFine(c)
  {
    PricesAre(c);
    if AllPricesInside(c) {
      QuotedIs(c, "TRUE_CLOSE");
      QuotedIs(c, "EARLIER_QUOTE_PROXY");
    }
  }

  /** What a CLOSE row must be. */
  lemma ValidCloseIff(row: Record)
    ensures ValidClose(row) <==>
      && (exists ticker :: TickerIs(row, ticker) && !LedgerFile.Blank(ticker))
      && "side" in row && row["side"] in {Str("YES"), Str("NO")}
      && exists c :: BodyOf(row, c) && CloseFine(c)
  {
    if Get(row, "market_ticker").Str? { assert TickerIs(row, Get(row, "market_ticker").s); }
    if Get(row, "close").Obj? {
      assert BodyOf(row, Get(row, "close").fields);
      CloseBodyIff(Get(row, "close").fields);
    }
  }

  ghost predicate TickerIs(row: Record, ticker: string) {
    "market_ticker" in row && row["market_ticker"] == Str(ticker)
  }

  ghost predicate BodyOf(row: Record, c: Record) {
    "close" in row && row["close"] == Obj(c)
  }

  // ------------------------------------------------------------- any row

  ghost predicate KindIs(row: Record, kind: string) {
    "kind" in row && row["kind"] == Str(kind)
  }

  /** A row that may be filed: nothing private in it, of a known kind, and right for that kind. */
  ghost predicate RowFine(k: Checks, v: Value) {
    && v.Obj? && !k.isPrivate(v.fields) && k.envelopeOk(v.fields)
    && (|| (KindIs(v.fields, "EXECUTION") && k.executionOk(v.fields))
        || (KindIs(v.fields, "CLOSE") && ValidClose(v.fields))
        || (KindIs(v.fields, "LINK") && k.linkOk(v.fields)))
  }

  /** Two rows that are about the same evidence: the same kind and wager, and for a close the same
      quality, for a link the same status and recommendation. */
  ghost predicate SameEvidence(a: Record, b: Record) {
    && Get(a, "source_bet_key") == Get(b, "source_bet_key")
    && (|| (KindIs(a, "EXECUTION") && KindIs(b, "EXECUTION"))
        || (KindIs(a, "CLOSE") && KindIs(b, "CLOSE") &&
            exists c, d :: BodyOf(a, c) && BodyOf(b, d) && Get(c, "quality") == Get(d, "quality"))
        || (!KindIs(a, "EXECUTION") && !KindIs(a, "CLOSE") && !KindIs(b, "EXECUTION") && !KindIs(b, "CLOSE") &&
            Get(a, "status") == Get(b, "status") && Get(a, "recommendation_ref") == Get(b, "recommendation_ref")))
  }

  lemma SameKeyIff(a: Record, b: Record)
    ensures RowKey(a).Some? && RowKey(a) == RowKey(b) <==> SameEvidence(a, b)
  {
    if Get(a, "close").Obj? { assert BodyOf(a, Get(a, "close").fields); }
    if Get(b, "close").Obj? { assert BodyOf(b, Get(b, "close").fields); }
  }

  /** Two rows that say the same, whenever they were recorded. */
  ghost predicate SaysTheSame(a: Record, b: Record) {
    forall f | f != "recorded_at" :: (f in a <==> f in b) && (f in a && f in b ==> Coerced(a[f]) == Coerced(b[f]))
  }

  lemma SameContentIff(a: Record, b: Record)
    ensures Equal(Obj(Identity(a)), Obj(Identity(b))) <==> SaysTheSame(a, b)
  {
    var x, y := Identity(a), Identity(b);
    forall f | f in x && f in y ensures Equal(x[f], y[f]) <==> Coerced(a[f]) == Coerced(b[f]) {
      EqualIffCoerced(x[f], y[f]);
    }
    assert forall f :: f in x <==> f in a && f != "recorded_at";
    assert forall f :: f in y <==> f in b && f != "recorded_at";
  }

  /** The j-th row of the ledger is the last one about the same evidence. */
  ghost predicate LastAbout(ledger: seq<Record>, row: Record, j: int) {
    && 0 <= j < |ledger| && SameEvidence(ledger[j], row)
    && forall k | j < k < |ledger| :: !SameEvidence(ledger[k], row)
  }

  lemma {:induction false} FindsLastAbout(k: Checks, ledger: seq<Record>, row: Record)
    requires RowKey(row).Some?
    ensures match Lookup(EvidenceImporter(k), ledger, RowKey(row).value)
      case None => forall j | 0 <= j < |ledger| :: !SameEvidence(ledger[j], row)
      case Some(rec) => exists j :: LastAbout(ledger, row, j) && ledger[j] == rec
  {
    if ledger != [] {
      var n := |ledger| - 1;
      SameKeyIff(ledger[n], row);
      if SameEvidence(ledger[n], row) {
        assert LastAbout(ledger, row, n);
      } else {
        FindsLastAbout(k, ledger[..n], row);
        assert forall j | 0 <= j < n :: ledger[..n][j] == ledger[j];
        var found := Lookup(EvidenceImporter(k), ledger, RowKey(row).value);
        if found.Some? {
          var j :| LastAbout(ledger[..n], row, j) && ledger[..n][j] == found.value;
          assert LastAbout(ledger, row, j);
        }
      }
    }
  }

  lemma RowFineIff(k: Checks, row: Value)
    ensures RowFine(k, row) <==> EvidenceImporter(k).build(row, 0).Some?
    ensures RowFine(k, row) ==> RowKey(row.fields).Some?
    ensures RowFine(k, row) ==> EvidenceImporter(k).build(row, 0).value == Built(RowKey(row.fields).value, "", row.fields)
  {
  }

  /** What an import says of one row. */
  ghost predicate JudgedRow(k: Checks, ledger: seq<Record>, row: Value, index: int, r: Receipt) {
    && r.row == index
    && (r.verdict == REFUSED <==> !RowFine(k, row))
    && (r.verdict == NEW <==> RowFine(k, row) && forall j | 0 <= j < |ledger| :: !SameEvidence(ledger[j], row.fields))
    && (r.verdict == DUPLICATE_NOOP <==>
          RowFine(k, row) && exists j :: LastAbout(ledger, row.fields, j) && SaysTheSame(ledger[j], row.fields))
    && (r.verdict == CONFLICT <==>
          RowFine(k, row) && exists j :: LastAbout(ledger, row.fields, j) && !SaysTheSame(ledger[j], row.fields))
  }

  lemma OneIsLast(ledger: seq<Record>, row: Record, i: int, j: int)
    requires LastAbout(ledger, row, i) && LastAbout(ledger, row, j)
    ensures i == j
  {
    assert !(i < j) && !(j < i);
  }

  lemma RowIsJudged(k: Checks, ledger: seq<Record>, index: nat, row: Value)
    ensures JudgedRow(k, ledger, row, index, Judge(EvidenceImporter(k), ledger, index, row, 0).1)
    ensures Judge(EvidenceImporter(k), ledger, index, row, 0).0 ==
            if Judge(EvidenceImporter(k), ledger, index, row, 0).1.verdict == NEW then Some(row.fields) else None
  {
    RowFineIff(k, row);
    if RowFine(k, row) {
      FindsLastAbout(k, ledger, row.fields);
      var found := Lookup(EvidenceImporter(k), ledger, RowKey(row.fields).value);
      if found.Some? {
        var j :| LastAbout(ledger, row.fields, j) && ledger[j] == found.value;
        forall i | LastAbout(ledger, row.fields, i) ensures i == j {
          OneIsLast(ledger, row.fields, i, j);
        }
        SameContentIff(ledger[j], row.fields);
      }
    }
  }

  /** Every row of an import of evidence, exactly: its receipt against the ledger as the rows before
      it left it, and, if it is new, the row itself on the ledger that results. */
  lemma EvidenceIsFiled(k: Checks, ledger: seq<Record>, rows: seq<Value>, i: nat)
    requires i < |rows|
    ensures var imp := EvidenceImporter(k);
      var before, o := Import(imp, ledger, rows[..i], 0).ledger, Import(imp, ledger, rows, 0);
      && |o.receipts| == |rows| && ledger <= before <= o.ledger
      && JudgedRow(k, before, rows[i], i, o.receipts[i])
      && (o.receipts[i].verdict == NEW ==> |before| < |o.ledger| && o.ledger[|before|] == rows[i].fields)
  {
    var imp := EvidenceImporter(k);
    var before := Import(imp, ledger, rows[..i], 0).ledger;
    RowStands(imp, ledger, rows, 0, i);
    RowIsJudged(k, before, i, rows[i]);
  }
}
