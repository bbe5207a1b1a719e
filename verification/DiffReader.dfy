/** The gate's reading of a ledger diff, and what a diff it finds no removal in says of the ledger. */
module DiffReader {
  import opened Json
  import opened LedgerFile

  // ------------------------------------------------------------- reading the diff

  const UNPARSEABLE := Obj(map["_unparseable" := Bool(true)])

  predicate Starts(line: string, sign: char) {
    line != "" && line[0] == sign
  }

  predicate IsHeader(line: string) {
    |line| >= 3 && (line[..3] == "+++" || line[..3] == "---")
  }

  /** The row one diff line adds, if it adds one. */
  function AddedBy(codec: Codec, line: string): Option<Value> {
    if IsHeader(line) || !Starts(line, '+') || Strip(line[1..]) == "" then None
    else if codec.parse(Strip(line[1..])).Some? then codec.parse(Strip(line[1..]))
    else Some(UNPARSEABLE)
  }

  /** The raw text one diff line removes, if it removes any. */
  function RemovedBy(line: string): Option<string> {
    if IsHeader(line) || !Starts(line, '-') || Strip(line[1..]) == "" then None else Some(Strip(line[1..]))
  }

  lemma HeaderIff(text: string)
    ensures IsHeader("+" + text) <==> "++" <= text
    ensures IsHeader("-" + text) <==> "--" <= text
  {
    var plus, minus := "+" + text, "-" + text;
    if |text| >= 2 {
      assert plus[..3] == "+" + text[..2] && minus[..3] == "-" + text[..2];
      assert plus[..3][1..] == text[..2] && "+++"[1..] == "++";
      assert minus[..3][1..] == text[..2] && "---"[1..] == "--";
      assert plus[..3][0] == '+' && minus[..3][0] == '-';
    }
  }

  /** What each line of a diff is read as: a file header is passed over, and so are lines that only
      add or remove white space; a line that adds something else adds the value it parses as, or a
      mark in its place; one that removes something removes its text. */
  lemma LineReads(codec: Codec, text: string)
    ensures AddedBy(codec, "+" + text) ==
            if "++" <= text || Strip(text) == "" then None
            else if codec.parse(Strip(text)).Some? then Some(codec.parse(Strip(text)).value)
            else Some(Obj(map["_unparseable" := Bool(true)]))
    ensures RemovedBy("-" + text) == if "--" <= text || Strip(text) == "" then None else Some(Strip(text))
    ensures AddedBy(codec, "-" + text) == None && RemovedBy("+" + text) == None
  {
    HeaderIff(text);
    assert ("+" + text)[1..] == text && ("-" + text)[1..] == text;
  }

  lemma OtherLinesReadAsNothing(codec: Codec, line: string)
    requires line == "" || line[0] !in {'+', '-'}
    ensures AddedBy(codec, line) == None && RemovedBy(line) == None
  {
  }

  function AllAdded(codec: Codec, lines: seq<string>): seq<Value> {
    if lines == [] then []
    else
      var last := AddedBy(codec, lines[|lines| - 1]);
      AllAdded(codec, lines[..|lines| - 1]) + if last.Some? then [last.value] else []
  }

  function AllRemoved(lines: seq<string>): seq<string> {
    if lines == [] then []
    else
      var last := RemovedBy(lines[|lines| - 1]);
      AllRemoved(lines[..|lines| - 1]) + if last.Some? then [last.value] else []
  }

  /** The loop over the text of a unified diff without context. */
  method LedgerDiff(codec: Codec, out: string) returns (added: seq<Value>, removed: seq<string>)
    ensures added == AllAdded(codec, SplitLines(out)) && removed == AllRemoved(SplitLines(out))
  {
    added, removed := [], [];
    var lines := SplitLines(out);
    for i := 0 to |lines|
      invariant added == AllAdded(codec, lines[..i]) && removed == AllRemoved(lines[..i])
    {
      var line := lines[i];
      assert lines[..i + 1][..i] == lines[..i];
      if IsHeader(line) {
        continue;
      }
      if Starts(line, '+') {
        var payload := Strip(line[1..]);
        if payload == "" {
          continue;
        }
        var row := codec.parse(payload);
        if row.Some? {
          added := added + [row.value];
        } else {
          added := added + [UNPARSEABLE];
        }
      } else if Starts(line, '-') {
        var payload := Strip(line[1..]);
        if payload != "" {
          removed := removed + [payload];
        }
      }
    }
    assert lines[..|lines|] == lines;
  }

  lemma StripOfRecord(codec: Codec, r: Record)
    requires Sound(codec) && codec.holds(r)
    ensures Strip(codec.render(r)) == codec.render(r)
  {
    var text := codec.render(r);
    assert !IsSpace('{') && !IsSpace('}') && text[0] == '{';
  }

  lemma LineOfRecord(codec: Codec, r: Record)
    requires Sound(codec) && codec.holds(r)
    ensures AddedBy(codec, "+" + codec.render(r)) == Some(Obj(r)) && RemovedBy("+" + codec.render(r)) == None
    ensures RemovedBy("-" + codec.render(r)) == Some(codec.render(r)) && AddedBy(codec, "-" + codec.render(r)) == None
  {
    var text := codec.render(r);
    StripOfRecord(codec, r);
    assert ("+" + text)[1..] == text && ("-" + text)[1..] == text;
    assert ("+" + text)[1] == '{' && ("-" + text)[1] == '{';
    assert !IsHeader("+" + text) && !IsHeader("-" + text) by {
      assert |text| >= 2 ==> ("+" + text)[..3][1] == '{' && ("-" + text)[..3][1] == '{';
    }
  }

  lemma {:induction false} AddedConcat(codec: Codec, a: seq<string>, b: seq<string>)
    ensures AllAdded(codec, a + b) == AllAdded(codec, a) + AllAdded(codec, b)
    ensures AllRemoved(a + b) == AllRemoved(a) + AllRemoved(b)
  {
    if b == [] {
      assert a + b == a;
    } else {
      assert (a + b)[..|a + b| - 1] == a + b[..|b| - 1];
      AddedConcat(codec, a, b[..|b| - 1]);
    }
  }

  function Objects(recs: seq<Record>): seq<Value> {
    seq(|recs|, i requires 0 <= i < |recs| => Obj(recs[i]))
  }

  /** One more line, with what it adds and removes. */
  lemma LineNext(codec: Codec, lines: seq<string>, line: string)
    ensures AllAdded(codec, lines + [line]) == AllAdded(codec, lines) + (if AddedBy(codec, line).Some? then [AddedBy(codec, line).value] else [])
    ensures AllRemoved(lines + [line]) == AllRemoved(lines) + (if RemovedBy(line).Some? then [RemovedBy(line).value] else [])
  {
    assert (lines + [line])[..|lines|] == lines;
  }

  /** A removed line is overlooked exactly when what it removed is blank or itself began with two
      dashes, which no ledger row does. */
  lemma RemovalSeenIff(text: string)
    ensures RemovedBy("-" + text).Some? <==> !(|text| >= 2 && text[..2] == "--") && Strip(text) != ""
  {
    var line := "-" + text;
    assert line[1..] == text;
    if |text| >= 2 {
      assert line[..3] == "-" + text[..2];
      assert line[..3][1..] == text[..2] && "---"[1..] == "--";
    }
  }

  // ------------------------------------------------------------- what a line diff says of a ledger

  /** One line of a ledger as git compares it: its record, and whether a newline ends it. */
  datatype Row = Row(rec: Record, ended: bool)

  datatype Edit = Keep(row: Row) | Take(row: Row) | Put(row: Row)

  /** The ledger an edit script starts from, the one it ends in, and what it takes and puts. */
  function Before(es: seq<Edit>): seq<Row> {
    if es == [] then []
    else Before(es[..|es| - 1]) + if es[|es| - 1].Put? then [] else [es[|es| - 1].row]
  }

  function After(es: seq<Edit>): seq<Row> {
    if es == [] then []
    else After(es[..|es| - 1]) + if es[|es| - 1].Take? then [] else [es[|es| - 1].row]
  }

  function Taken(es: seq<Edit>): seq<Row> {
    if es == [] then []
    else Taken(es[..|es| - 1]) + if es[|es| - 1].Take? then [es[|es| - 1].row] else []
  }

  function Inserted(es: seq<Edit>): seq<Row> {
    if es == [] then []
    else Inserted(es[..|es| - 1]) + if es[|es| - 1].Put? then [es[|es| - 1].row] else []
  }

  function Records(rows: seq<Row>): seq<Record> {
    seq(|rows|, i requires 0 <= i < |rows| => rows[i].rec)
  }

  /** The rows as they are printed. */
  function Prints(codec: Codec, rows: seq<Row>): seq<string> {
    seq(|rows|, i requires 0 <= i < |rows| => codec.render(rows[i].rec))
  }

  /** The signed lines a diff without context shows for a script. */
  function Shown(codec: Codec, es: seq<Edit>): seq<string> {
    if es == [] then [] else Shown(codec, es[..|es| - 1]) + ShownBy(codec, es[|es| - 1])
  }

  function ShownBy(codec: Codec, e: Edit): seq<string> {
    match e
    case Keep(_) => []
    case Take(row) => ["-" + codec.render(row.rec)]
    case Put(row) => ["+" + codec.render(row.rec)]
  }

  /** A line of the diff that is about no row: a file or hunk header, or the remark that a last
      line has no newline. */
  predicate IsNote(line: string) {
    IsHeader(line) || !(Starts(line, '+') || Starts(line, '-'))
  }

  /** A line is about a row exactly when a sign stands before text that does not go on with two more. */
  lemma NoteIff(text: string)
    ensures IsNote("+" + text) <==> "++" <= text
    ensures IsNote("-" + text) <==> "--" <= text
    ensures text == "" || text[0] !in {'+', '-'} ==> IsNote(text)
  {
    HeaderIff(text);
  }

  function Signed(lines: seq<string>): seq<string> {
    if lines == [] then []
    else Signed(lines[..|lines| - 1]) + if IsNote(lines[|lines| - 1]) then [] else [lines[|lines| - 1]]
  }

  /** These lines are the diff of that script, with any notes in between. */
  ghost predicate Renders(codec: Codec, es: seq<Edit>, lines: seq<string>) {
    Signed(lines) == Shown(codec, es)
  }

  ghost predicate HoldsEdits(codec: Codec, es: seq<Edit>) {
    forall i | 0 <= i < |es| :: codec.holds(es[i].row.rec)
  }

  lemma NoteSaysNothing(codec: Codec, line: string)
    requires IsNote(line)
    ensures AddedBy(codec, line) == None && RemovedBy(line) == None
  {
  }

  lemma {:induction false} NotesSayNothing(codec: Codec, lines: seq<string>)
    ensures AllAdded(codec, lines) == AllAdded(codec, Signed(lines))
    ensures AllRemoved(lines) == AllRemoved(Signed(lines))
  {
    if lines != [] {
      var rest, line := lines[..|lines| - 1], lines[|lines| - 1];
      NotesSayNothing(codec, rest);
      assert lines == rest + [line];
      LineNext(codec, rest, line);
      if IsNote(line) {
        NoteSaysNothing(codec, line);
        assert Signed(lines) == Signed(rest);
      } else {
        assert Signed(lines) == Signed(rest) + [line];
        LineNext(codec, Signed(rest), line);
      }
    }
  }

  /** What the last edit adds to each reading of a script. */
  lemma ScriptNext(es: seq<Edit>)
    requires es != []
    ensures var before, e := es[..|es| - 1], es[|es| - 1];
      && Before(es) == Before(before) + (if e.Put? then [] else [e.row])
      && After(es) == After(before) + (if e.Take? then [] else [e.row])
      && Inserted(es) == Inserted(before) + (if e.Put? then [e.row] else [])
      && Taken(es) == Taken(before) + if e.Take? then [e.row] else []
  {
  }

  lemma {:induction false} ShownReadsBack(codec: Codec, es: seq<Edit>)
    requires Sound(codec) && HoldsEdits(codec, es)
    ensures AllAdded(codec, Shown(codec, es)) == Objects(Records(Inserted(es)))
    ensures AllRemoved(Shown(codec, es)) == Prints(codec, Taken(es))
  {
    if es != [] {
      var before, e := es[..|es| - 1], es[|es| - 1];
      assert HoldsEdits(codec, before) by {
        assert forall i | 0 <= i < |before| :: before[i] == es[i];
      }
      ShownReadsBack(codec, before);
      ScriptNext(es);
      AddedConcat(codec, Shown(codec, before), ShownBy(codec, e));
      ShownByReadsBack(codec, e);
      RecordsConcat(Inserted(before), if e.Put? then [e.row] else []);
      PrintsConcat(codec, Taken(before), if e.Take? then [e.row] else []);
    }
  }

  lemma PrintsConcat(codec: Codec, a: seq<Row>, b: seq<Row>)
    ensures Prints(codec, a + b) == Prints(codec, a) + Prints(codec, b)
  {
  }

  lemma ShownByReadsBack(codec: Codec, e: Edit)
    requires Sound(codec) && codec.holds(e.row.rec)
    ensures AllAdded(codec, ShownBy(codec, e)) == Objects(Records(if e.Put? then [e.row] else []))
    ensures AllRemoved(ShownBy(codec, e)) == Prints(codec, if e.Take? then [e.row] else [])
  {
    LineOfRecord(codec, e.row.rec);
    match e
    case Keep(_) =>
    case Take(row) => LineNext(codec, [], "-" + codec.render(row.rec));
    case Put(row) => LineNext(codec, [], "+" + codec.render(row.rec));
  }

  lemma RecordsConcat(a: seq<Row>, b: seq<Row>)
    ensures Records(a + b) == Records(a) + Records(b)
    ensures Objects(Records(a + b)) == Objects(Records(a)) + Objects(Records(b))
    ensures multiset(Records(a + b)) == multiset(Records(a)) + multiset(Records(b))
  {
    assert Records(a + b) == Records(a) + Records(b);
  }

  /** The diff of any script reads back as exactly the records it puts in, in order, and as the text
      of exactly the rows it takes out, in order. */
  lemma DiffReadsBack(codec: Codec, es: seq<Edit>, lines: seq<string>)
    requires Sound(codec) && HoldsEdits(codec, es) && Renders(codec, es, lines)
    ensures AllAdded(codec, lines) == Objects(Records(Inserted(es)))
    ensures AllRemoved(lines) == Prints(codec, Taken(es)) && |AllRemoved(lines)| == |Taken(es)|
  {
    NotesSayNothing(codec, lines);
    ShownReadsBack(codec, es);
  }

  /** `whole` is `base` with `more` put in between its rows, both in their own order. */
  predicate Interleaves(base: seq<Row>, more: seq<Row>, whole: seq<Row>) {
    if whole == [] then base == [] && more == []
    else
      var n := |whole| - 1;
      || (base != [] && base[|base| - 1] == whole[n] && Interleaves(base[..|base| - 1], more, whole[..n]))
      || (more != [] && more[|more| - 1] == whole[n] && Interleaves(base, more[..|more| - 1], whole[..n]))
  }

  /** A script that takes nothing interleaves what it puts with what was there. */
  lemma {:induction false} NothingTakenInterleaves(es: seq<Edit>)
    requires Taken(es) == []
    ensures Interleaves(Before(es), Inserted(es), After(es))
  {
    if es != [] {
      var before, e := es[..|es| - 1], es[|es| - 1];
      ScriptNext(es);
      NothingTakenInterleaves(before);
      InterleavesNext(Before(before), Inserted(before), After(before), e.row);
      assert Before(before) + [] == Before(before) && Inserted(before) + [] == Inserted(before);
    }
  }

  lemma InterleavesNext(base: seq<Row>, more: seq<Row>, whole: seq<Row>, row: Row)
    requires Interleaves(base, more, whole)
    ensures Interleaves(base + [row], more, whole + [row]) && Interleaves(base, more + [row], whole + [row])
  {
    assert (base + [row])[..|base|] == base && (more + [row])[..|more|] == more && (whole + [row])[..|whole|] == whole;
  }

  /** The rows of `a` occur in `b`, in order. */
  predicate Embeds(a: seq<Row>, b: seq<Row>) {
    a == [] ||
    (b != [] && ((a[|a| - 1] == b[|b| - 1] && Embeds(a[..|a| - 1], b[..|b| - 1])) || Embeds(a, b[..|b| - 1])))
  }

  lemma {:induction false} InterleavedEmbeds(base: seq<Row>, more: seq<Row>, whole: seq<Row>)
    requires Interleaves(base, more, whole)
    ensures Embeds(base, whole)
  {
    if whole != [] {
      var n := |whole| - 1;
      if base != [] && base[|base| - 1] == whole[n] && Interleaves(base[..|base| - 1], more, whole[..n]) {
        InterleavedEmbeds(base[..|base| - 1], more, whole[..n]);
      } else {
        InterleavedEmbeds(base, more[..|more| - 1], whole[..n]);
      }
    }
  }

  /** A script that takes nothing, for a ledger whose rows all survive. */
  lemma {:induction false} EmbeddingScript(base: seq<Row>, whole: seq<Row>) returns (es: seq<Edit>)
    requires Embeds(base, whole)
    ensures Before(es) == base && After(es) == whole && Taken(es) == []
    decreases |whole|
  {
    if whole == [] {
      es := [];
    } else {
      var n := |whole| - 1;
      var last: Edit;
      if base != [] && base[|base| - 1] == whole[n] && Embeds(base[..|base| - 1], whole[..n]) {
        es := EmbeddingScript(base[..|base| - 1], whole[..n]);
        last := Keep(whole[n]);
      } else {
        es := EmbeddingScript(base, whole[..n]);
        last := Put(whole[n]);
      }
      assert (es + [last])[..|es|] == es;
      es := es + [last];
      assert whole[..n] + [whole[n]] == whole;
    }
  }

  /** How many rows a script changes. */
  function Changes(es: seq<Edit>): nat {
    |Taken(es)| + |Inserted(es)|
  }

  lemma {:induction false} ChangesBalance(es: seq<Edit>)
    ensures |Before(es)| + |Inserted(es)| == |After(es)| + |Taken(es)|
  {
    if es != [] {
      ChangesBalance(es[..|es| - 1]);
    }
  }

  ghost predicate Shortest(es: seq<Edit>) {
    forall other {:trigger Changes(other)} | Before(other) == Before(es) && After(other) == After(es) :: Changes(es) <= Changes(other)
  }

  lemma NoShorter(es: seq<Edit>, other: seq<Edit>)
    requires Shortest(es) && Before(other) == Before(es) && After(other) == After(es)
    ensures Changes(es) <= Changes(other)
  {
  }

  /** A shortest script takes nothing exactly when every row survives, in order: rows may have been
      put in anywhere between them. */
  lemma RemovalFreeIff(es: seq<Edit>)
    requires Shortest(es)
    ensures Taken(es) == [] <==> Embeds(Before(es), After(es))
  {
    if Taken(es) == [] {
      NothingTakenInterleaves(es);
      InterleavedEmbeds(Before(es), Inserted(es), After(es));
    } else if Embeds(Before(es), After(es)) {
      var other := EmbeddingScript(Before(es), After(es));
      NoShorter(es, other);
      ChangesBalance(es);
      ChangesBalance(other);
    }
  }

  /** Only the last line of a file can lack its newline. */
  predicate WellEnded(rows: seq<Row>) {
    forall i | 0 <= i < |rows| - 1 :: rows[i].ended
  }

  lemma {:induction false} EmbeddedLast(a: seq<Row>, b: seq<Row>)
    requires a != [] && Embeds(a, b)
    ensures a[|a| - 1] in b
  {
    if a[|a| - 1] != b[|b| - 1] {
      EmbeddedLast(a, b[..|b| - 1]);
    }
  }

  /** Behind a last row without its newline nothing can be put without that row showing as taken. */
  lemma UnfinishedRowStaysLast(es: seq<Edit>)
    requires Taken(es) == [] && WellEnded(After(es))
    requires Before(es) != [] && !Before(es)[|Before(es)| - 1].ended
    ensures After(es) != [] && After(es)[|After(es)| - 1] == Before(es)[|Before(es)| - 1]
  {
    var base, whole := Before(es), After(es);
    NothingTakenInterleaves(es);
    InterleavedEmbeds(base, Inserted(es), whole);
    if base[|base| - 1] != whole[|whole| - 1] {
      EmbeddedLast(base, whole[..|whole| - 1]);
    }
  }

  /** A diff without removals is not yet an append: a row put in before another shows none. */
  lemma InsertionShowsNoRemoval(codec: Codec, r: Record, other: Record)
    requires Sound(codec) && codec.holds(r) && codec.holds(other) && r != other
    ensures var es := [Put(Row(other, true)), Keep(Row(r, true))];
      && AllRemoved(Shown(codec, es)) == [] && AllAdded(codec, Shown(codec, es)) == [Obj(other)]
      && Before(es) == [Row(r, true)] && !(Before(es) <= After(es))
  {
    var put, keep := Put(Row(other, true)), Keep(Row(r, true));
    var es := [put, keep];
    TwoEdits(put, keep);
    ShownReadsBack(codec, es);
    assert After(es)[0] == Row(other, true) && Before(es)[0] == Row(r, true);
  }

  lemma TwoEdits(a: Edit, b: Edit)
    ensures var es := [a, b];
      && Before(es) == (if a.Put? then [] else [a.row]) + (if b.Put? then [] else [b.row])
      && After(es) == (if a.Take? then [] else [a.row]) + (if b.Take? then [] else [b.row])
      && Taken(es) == (if a.Take? then [a.row] else []) + (if b.Take? then [b.row] else [])
      && Inserted(es) == (if a.Put? then [a.row] else []) + if b.Put? then [b.row] else []
  {
    ScriptNext([a, b]);
    assert [a, b][..1] == [a];
    ScriptNext([a]);
    assert [a][..0] == [];
  }

  lemma {:induction false} NothingTakenAdds(es: seq<Edit>)
    requires Taken(es) == []
    ensures multiset(Records(After(es))) == multiset(Records(Before(es))) + multiset(Records(Inserted(es)))
  {
    if es != [] {
      var before, e := es[..|es| - 1], es[|es| - 1];
      ScriptNext(es);
      NothingTakenAdds(before);
      AddsNext(Before(before), Inserted(before), After(before), e);
    }
  }

  lemma AddsNext(base: seq<Row>, more: seq<Row>, whole: seq<Row>, e: Edit)
    requires multiset(Records(whole)) == multiset(Records(base)) + multiset(Records(more)) && !e.Take?
    ensures multiset(Records(whole + [e.row])) ==
            multiset(Records(base + if e.Put? then [] else [e.row])) + multiset(Records(more + if e.Put? then [e.row] else []))
  {
    RecordsConcat(whole, [e.row]);
    if e.Put? {
      RecordsConcat(more, [e.row]);
      assert base + [] == base;
    } else {
      RecordsConcat(base, [e.row]);
      assert more + [] == more;
    }
  }
}
