/** A JSONL ledger as text: how it is split into lines, read, and appended to.

    JSON itself is a `Codec`: a printer for one record and a parser for one line. `holds` says
    which records the printer's host can hold at all (its numbers are floats, not reals). */
module LedgerFile {
  import opened Json

  datatype Codec = Codec(holds: Record -> bool, render: Record -> string, parse: string -> Option<Value>)

  /** Where Python's `str.splitlines` ends a line. */
  predicate IsBreak(c: char) {
    || '\n' <= c <= '\r'
    || '\U{1C}' <= c <= '\U{1E}'
    || c == '\U{85}' || c == '\U{2028}' || c == '\U{2029}'
  }

  /** What Python's `str.strip` removes. */
  predicate IsSpace(c: char) {
    || IsBreak(c)
    || c == '\t' || c == ' ' || c == '\U{1F}' || c == '\U{A0}' || c == '\U{1680}'
    || '\U{2000}' <= c <= '\U{200A}'
    || c == '\U{202F}' || c == '\U{205F}' || c == '\U{3000}'
  }

  predicate Blank(s: string) {
    forall i | 0 <= i < |s| :: IsSpace(s[i])
  }

  /** `str.strip`. */
  function Strip(s: string): string
    decreases |s|
  {
    if s == "" then ""
    else if IsSpace(s[0]) then Strip(s[1..])
    else if IsSpace(s[|s| - 1]) then Strip(s[..|s| - 1])
    else s
  }

  /** White space JSON itself allows within one line. */
  predicate JsonBlank(s: string) {
    forall i | 0 <= i < |s| :: s[i] == ' ' || s[i] == '\t'
  }

  /** What is assumed of JSON, for every record the host can hold: a printed object starts and
      ends with its brace, parses back, is not JSON when cut short, and, on one line, is not JSON
      after a complete value or after white space JSON does not know. */
  ghost predicate Sound(codec: Codec) {
    forall r | codec.holds(r) :: var text := codec.render(r);
      && text != "" && text[0] == '{' && text[|text| - 1] == '}'
      && codec.parse(text) == Some(Obj(r))
      && (forall k {:trigger text[..k]} | 0 < k < |text| :: codec.parse(text[..k]) == None)
      && (forall x {:trigger x + text} ::
            && (JsonBlank(x) ==> codec.parse(x + text) == Some(Obj(r)))
            && (!JsonBlank(x) && NoBreak(x) && (Blank(x) || codec.parse(x).Some?) ==> codec.parse(x + text) == None))
  }

  /** The record prints on one line as `splitlines` counts lines. JSON escapes every control
      character, so only U+0085, U+2028 and U+2029 inside a string can make this false. */
  predicate OneLine(codec: Codec, r: Record) {
    NoBreak(codec.render(r))
  }

  ghost predicate HoldsAll(codec: Codec, recs: seq<Record>) {
    forall i | 0 <= i < |recs| :: codec.holds(recs[i])
  }

  ghost predicate AllOneLine(codec: Codec, recs: seq<Record>) {
    forall i | 0 <= i < |recs| :: OneLine(codec, recs[i])
  }

  predicate NoBreak(s: string) {
    forall i | 0 <= i < |s| :: !IsBreak(s[i])
  }

  // ------------------------------------------------------------- lines

  /** The first line of `t` is `t[..k]`. */
  ghost predicate BreaksAt(t: string, k: nat) {
    && k <= |t|
    && (forall i | 0 <= i < k :: !IsBreak(t[i]))
    && (k < |t| ==> IsBreak(t[k]))
  }

  function FirstBreak(t: string): (k: nat)
    ensures BreaksAt(t, k)
  {
    if t == "" || IsBreak(t[0]) then 0 else 1 + FirstBreak(t[1..])
  }

  lemma FirstBreakAt(t: string, k: nat)
    requires BreaksAt(t, k)
    ensures FirstBreak(t) == k
  {
  }

  /** The length of the line break at `t[k]`: a carriage return takes its newline with it. */
  function BreakLength(t: string, k: nat): nat
    requires k < |t|
  {
    if t[k] == '\r' && k + 1 < |t| && t[k + 1] == '\n' then 2 else 1
  }

  /** `str.splitlines`. */
  function SplitLines(t: string): seq<string> {
    if t == "" then []
    else
      var k := FirstBreak(t);
      if k == |t| then [t] else [t[..k]] + SplitLines(t[k + BreakLength(t, k)..])
  }

  // ------------------------------------------------------------- the same, by code point

  /** The ten characters that end a line, and the nineteen more that are white space. */
  lemma SpacesAre(c: char)
    ensures IsBreak(c) <==> (10 <= c as int <= 13 || 28 <= c as int <= 30 || c as int in {133, 8232, 8233})
    ensures IsSpace(c) <==> (9 <= c as int <= 13 || 28 <= c as int <= 32 || 8192 <= c as int <= 8202
                             || c as int in {133, 160, 5760, 8232, 8233, 8239, 8287, 12288})
    ensures JsonBlank([c]) <==> c as int in {9, 32}
  {
    assert [c][0] == c;
  }

  /** Lines and what ended them, put back together. */
  ghost function Rejoined(lines: seq<string>, ends: seq<string>): string
    requires |lines| == |ends|
  {
    if lines == [] then "" else lines[0] + ends[0] + Rejoined(lines[1..], ends[1..])
  }

  /** How a line may end: in a carriage return with its newline, in one break character, or, at the
      very end of a text that does not stop in one, in nothing. */
  ghost predicate LineEnd(lines: seq<string>, ends: seq<string>, i: int)
    requires |lines| == |ends| && 0 <= i < |lines|
  {
    && NoBreak(lines[i])
    && (|| ends[i] == "\r\n"
        || (|ends[i]| == 1 && IsBreak(ends[i][0]) &&
            (ends[i] == "\r" && i + 1 < |lines| && lines[i + 1] == "" ==> ends[i + 1] != "\n"))
        || (ends[i] == "" && i == |lines| - 1 && lines[i] != ""))
  }

  /** These lines, so ended, are this text. */
  ghost predicate Joins(t: string, lines: seq<string>, ends: seq<string>) {
    && |lines| == |ends| && Rejoined(lines, ends) == t
    && forall i | 0 <= i < |ends| :: LineEnd(lines, ends, i)
  }

  /** Splitting loses nothing but the ends of the lines. */
  lemma {:induction false} LinesRejoin(t: string) returns (ends: seq<string>)
    ensures Joins(t, SplitLines(t), ends)
    decreases |t|
  {
    if t == "" {
      ends := [];
    } else if FirstBreak(t) == |t| {
      ends := [""];
      Unfinished(t);
    } else {
      var k := FirstBreak(t);
      var n := k + BreakLength(t, k);
      var more := LinesRejoin(t[n..]);
      ends := [t[k..n]] + more;
      JoinsNext(t, k, n, SplitLines(t[n..]), more);
    }
  }

  lemma Unfinished(t: string)
    requires t != "" && FirstBreak(t) == |t|
    ensures SplitLines(t) == [t] && Joins(t, [t], [""])
  {
    assert [t][1..] == [] && [""][1..] == [];
  }

  lemma JoinsNext(t: string, k: nat, n: nat, lines: seq<string>, ends: seq<string>)
    requires BreaksAt(t, k) && k < |t| && n == k + BreakLength(t, k) && Joins(t[n..], lines, ends)
    ensures Joins(t, [t[..k]] + lines, [t[k..n]] + ends)
  {
    EndIs(t, k, lines, ends);
    LinesNext(t[..k], t[k..n], lines, ends);
    assert t == t[..k] + t[k..n] + t[n..];
  }

  lemma LinesNext(line: string, end: string, lines: seq<string>, ends: seq<string>)
    requires |lines| == |ends| && forall i | 0 <= i < |ends| :: LineEnd(lines, ends, i)
    requires LineEnd([line] + lines, [end] + ends, 0)
    ensures Rejoined([line] + lines, [end] + ends) == line + end + Rejoined(lines, ends)
    ensures forall i | 0 <= i <= |ends| :: LineEnd([line] + lines, [end] + ends, i)
  {
    var ls, es := [line] + lines, [end] + ends;
    assert ls[1..] == lines && es[1..] == ends;
    forall i | 0 < i <= |ends| ensures LineEnd(ls, es, i) {
      assert LineEnd(lines, ends, i - 1) && ls[i] == lines[i - 1] && es[i] == ends[i - 1];
    }
  }

  lemma EndIs(t: string, k: nat, lines: seq<string>, ends: seq<string>)
    requires BreaksAt(t, k) && k < |t| && |lines| == |ends|
    requires Rejoined(lines, ends) == t[k + BreakLength(t, k)..]
    ensures LineEnd([t[..k]] + lines, [t[k..k + BreakLength(t, k)]] + ends, 0)
  {
    if BreakLength(t, k) == 2 {
      assert t[k..k + 2] == "\r\n";
    } else {
      assert t[k..k + 1] == [t[k]];
      if t[k] == '\r' && lines != [] && lines[0] == "" {
        NewlineFirst(lines, ends);
      }
    }
  }

  lemma NewlineFirst(lines: seq<string>, ends: seq<string>)
    requires |lines| == |ends| && lines != [] && lines[0] == ""
    ensures ends[0] == "\n" ==> Rejoined(lines, ends) != "" && Rejoined(lines, ends)[0] == '\n'
  {
  }

  /** What is left between `i` and `j` when the white space at both ends is gone. */
  ghost predicate StrippedAt(s: string, i: nat, j: nat) {
    && i <= j <= |s| && Strip(s) == s[i..j] && Blank(s[..i]) && Blank(s[j..])
    && (i < j ==> !IsSpace(s[i]) && !IsSpace(s[j - 1]))
  }

  /** Stripping removes white space at both ends, and all of it. */
  lemma {:induction false} StripIs(s: string) returns (i: nat, j: nat)
    ensures StrippedAt(s, i, j)
    decreases |s|
  {
    if s != "" && IsSpace(s[0]) {
      i, j := StripIs(s[1..]);
      StripFirst(s, i, j);
      i, j := i + 1, j + 1;
    } else if s != "" && IsSpace(s[|s| - 1]) {
      i, j := StripIs(s[..|s| - 1]);
      StripLast(s, i, j);
    } else {
      i, j := 0, |s|;
      assert s[0..|s|] == s;
    }
  }

  lemma StripFirst(s: string, i: nat, j: nat)
    requires s != "" && IsSpace(s[0]) && StrippedAt(s[1..], i, j)
    ensures StrippedAt(s, i + 1, j + 1)
  {
    BlankCons(s, i + 1);
    assert s[1..][i..j] == s[i + 1..j + 1] && s[1..][j..] == s[j + 1..];
  }

  lemma StripLast(s: string, i: nat, j: nat)
    requires s != "" && !IsSpace(s[0]) && IsSpace(s[|s| - 1]) && StrippedAt(s[..|s| - 1], i, j)
    ensures StrippedAt(s, i, j)
  {
    BlankSnoc(s, j);
    assert s[..|s| - 1][i..j] == s[i..j] && s[..|s| - 1][..i] == s[..i];
  }

  lemma BlankCons(s: string, i: nat)
    requires 1 <= i <= |s| && IsSpace(s[0]) && Blank(s[1..][..i - 1])
    ensures Blank(s[..i])
  {
    assert forall k | 1 <= k < i :: s[..i][k] == s[1..][..i - 1][k - 1];
  }

  lemma BlankSnoc(s: string, j: nat)
    requires j < |s| && IsSpace(s[|s| - 1]) && Blank(s[..|s| - 1][j..])
    ensures Blank(s[j..])
  {
    assert forall k | 0 <= k < |s| - 1 - j :: s[j..][k] == s[..|s| - 1][j..][k];
  }

  /** Two stretches of a file, read one after the other. */
  function Then(a: Result<seq<Record>>, b: Result<seq<Record>>): Result<seq<Record>> {
    if a.Ok? && b.Ok? then Ok(a.value + b.value) else Err
  }

  lemma ThenAssociative(a: Result<seq<Record>>, b: Result<seq<Record>>, c: Result<seq<Record>>)
    ensures Then(Then(a, b), c) == Then(a, Then(b, c))
  {
    if a.Ok? && b.Ok? && c.Ok? {
      assert a.value + b.value + c.value == a.value + (b.value + c.value);
    }
  }

  lemma ThenNothing(a: Result<seq<Record>>)
    ensures Then(a, Ok([])) == a && Then(Ok([]), a) == a
  {
    if a.Ok? {
      assert a.value + [] == a.value && [] + a.value == a.value;
    }
  }

  function ReadLines(codec: Codec, lines: seq<string>): Result<seq<Record>> {
    if lines == [] then Ok([])
    else if Blank(lines[0]) then ReadLines(codec, lines[1..])
    else
      match codec.parse(lines[0])
      case Some(Obj(r)) => Then(Ok([r]), ReadLines(codec, lines[1..]))
      case _ => Err
  }

  /** `read_jsonl`: blank lines are skipped, anything but an object is refused. */
  function ReadJsonl(codec: Codec, t: string): Result<seq<Record>> {
    ReadLines(codec, SplitLines(t))
  }

  function Printed(codec: Codec, recs: seq<Record>): string {
    if recs == [] then "" else codec.render(recs[0]) + "\n" + Printed(codec, recs[1..])
  }

  /** The routed ledger's `_append`: a missing final newline is supplied first. */
  function Appended(codec: Codec, t: string, recs: seq<Record>): string {
    if recs == [] then t
    else if t != "" && t[|t| - 1] != '\n' then t + "\n" + Printed(codec, recs)
    else t + Printed(codec, recs)
  }

  /** The evidence ledger's append, which has no such guard. */
  function AppendedBare(codec: Codec, t: string, recs: seq<Record>): string {
    t + Printed(codec, recs)
  }

  class JsonlFile {
    /** The file's text; an absent file reads and appends exactly as an empty one. */
    var text: string

    constructor (text: string)
      ensures this.text == text
    {
      this.text := text;
    }

    method Read(codec: Codec) returns (rows: Result<seq<Record>>)
      ensures rows == ReadJsonl(codec, text)
    {
      var lines := SplitLines(text);
      var out: seq<Record> := [];
      ThenNothing(ReadLines(codec, lines));
      assert lines[0..] == lines;
      for i := 0 to |lines|
        invariant ReadLines(codec, lines) == Then(Ok(out), ReadLines(codec, lines[i..]))
      {
        assert lines[i..][1..] == lines[i + 1..];
        if Blank(lines[i]) {
          continue;
        }
        var row := codec.parse(lines[i]);
        if row.None? || !row.value.Obj? {
          return Err;
        }
        ThenAssociative(Ok(out), Ok([row.value.fields]), ReadLines(codec, lines[i + 1..]));
        out := out + [row.value.fields];
      }
      ThenNothing(Ok(out));
      rows := Ok(out);
    }

    method Append(codec: Codec, recs: seq<Record>)
      modifies this
      ensures text == Appended(codec, old(text), recs)
    {
      if recs == [] {
        return;
      }
      if text != "" && text[|text| - 1] != '\n' {
        text := text + "\n";
      }
      WriteAll(codec, recs);
    }

    method AppendBare(codec: Codec, recs: seq<Record>)
      modifies this
      ensures text == AppendedBare(codec, old(text), recs)
    {
      WriteAll(codec, recs);
    }

    method WriteAll(codec: Codec, recs: seq<Record>)
      modifies this
      ensures text == old(text) + Printed(codec, recs)
    {
      for i := 0 to |recs|
        invariant text + Printed(codec, recs[i..]) == old(text) + Printed(codec, recs)
      {
        assert recs[i..][1..] == recs[i + 1..];
        ghost var before := text;
        text := text + codec.render(recs[i]) + "\n";
        assert text + Printed(codec, recs[i + 1..]) == before + Printed(codec, recs[i..]);
      }
    }
  }

  // ------------------------------------------------------------- reading what was appended

  lemma {:induction false} ReadLinesConcat(codec: Codec, a: seq<string>, b: seq<string>)
    ensures ReadLines(codec, a + b) == Then(ReadLines(codec, a), ReadLines(codec, b))
  {
    if a == [] {
      assert a + b == b;
      ThenNothing(ReadLines(codec, b));
    } else {
      assert (a + b)[1..] == a[1..] + b;
      ReadLinesConcat(codec, a[1..], b);
      if !Blank(a[0]) && codec.parse(a[0]).Some? && codec.parse(a[0]).value.Obj? {
        ThenAssociative(Ok([codec.parse(a[0]).value.fields]), ReadLines(codec, a[1..]), ReadLines(codec, b));
      }
    }
  }

  /** Reading `t` is reading its first line and then the rest. */
  lemma ReadFirst(codec: Codec, t: string)
    requires FirstBreak(t) < |t|
    ensures var k := FirstBreak(t);
            ReadJsonl(codec, t) == Then(ReadLines(codec, [t[..k]]), ReadJsonl(codec, t[k + BreakLength(t, k)..]))
  {
    var k := FirstBreak(t);
    ReadLinesConcat(codec, [t[..k]], SplitLines(t[k + BreakLength(t, k)..]));
  }

  lemma Associative<T>(a: seq<T>, b: seq<T>, c: seq<T>)
    ensures a + b + c == a + (b + c)
  {
  }

  lemma Slices<T>(t: seq<T>, u: seq<T>, k: nat)
    requires k <= |t|
    ensures (t + u)[..k] == t[..k] && (t + u)[k..] == t[k..] + u
  {
  }

  lemma BreaksAtMore(t: string, u: string, k: nat)
    requires k < |t| && BreaksAt(t, k)
    ensures FirstBreak(t + u) == k
  {
    assert forall i | 0 <= i <= k :: (t + u)[i] == t[i];
    FirstBreakAt(t + u, k);
  }

  /** A first line of `t` is a first line of `t + u`, unless the break is a carriage return that
      the start of `u` would complete. */
  lemma FirstLine(t: string, u: string)
    requires FirstBreak(t) < |t|
    requires FirstBreak(t) == |t| - 1 && t[|t| - 1] == '\r' ==> u == "" || u[0] != '\n'
    ensures var k := FirstBreak(t);
      && FirstBreak(t + u) == k
      && (t + u)[..k] == t[..k]
      && BreakLength(t + u, k) == BreakLength(t, k)
      && (t + u)[k + BreakLength(t, k)..] == t[k + BreakLength(t, k)..] + u
  {
    var k := FirstBreak(t);
    BreaksAtMore(t, u, k);
    Slices(t, u, k);
    Slices(t, u, k + BreakLength(t, k));
  }

  /** Text that ends in a newline splits independently of what follows. */
  lemma {:induction false} SplitConcat(t: string, u: string)
    requires t == "" || t[|t| - 1] == '\n'
    ensures SplitLines(t + u) == SplitLines(t) + SplitLines(u)
    decreases |t|
  {
    if t == "" {
      assert t + u == u;
    } else {
      var k := FirstBreak(t);
      FirstLine(t, u);
      var rest := t[k + BreakLength(t, k)..];
      SplitConcat(rest, u);
      Associative([t[..k]], SplitLines(rest), SplitLines(u));
    }
  }

  /** One line and its newline. */
  lemma ReadOneLine(codec: Codec, line: string, u: string)
    requires NoBreak(line)
    ensures ReadJsonl(codec, line + "\n" + u) == Then(ReadLines(codec, [line]), ReadJsonl(codec, u))
  {
    var t := line + "\n" + u;
    assert t[..|line|] == line && forall i | 0 <= i < |line| :: t[i] == line[i];
    FirstBreakAt(t, |line|);
    assert t[|line| + 1..] == u;
    ReadFirst(codec, t);
  }

  /** A newline after a final carriage return completes that break. */
  lemma FinalReturn(t: string)
    requires t != "" && FirstBreak(t) == |t| - 1 && t[|t| - 1] == '\r'
    ensures SplitLines(t + "\n") == SplitLines(t)
  {
    var k, u := |t| - 1, t + "\n";
    BreaksAtMore(t, "\n", k);
    Slices(t, "\n", k);
    assert u[k + 2..] == "" == t[k + 1..];
  }

  /** Reading `t + u` is reading the first line of `t` and then the rest. */
  lemma ReadFirstOf(codec: Codec, t: string, u: string)
    requires FirstBreak(t) < |t|
    requires FirstBreak(t) == |t| - 1 && t[|t| - 1] == '\r' ==> u == "" || u[0] != '\n'
    ensures var k := FirstBreak(t);
            ReadJsonl(codec, t + u) == Then(ReadLines(codec, [t[..k]]), ReadJsonl(codec, t[k + BreakLength(t, k)..] + u))
  {
    var k := FirstBreak(t);
    FirstLine(t, u);
    ReadFirstAt(codec, t + u, k, t[..k], t[k + BreakLength(t, k)..] + u);
  }

  lemma ReadFirstAt(codec: Codec, t: string, k: nat, line: string, rest: string)
    requires k == FirstBreak(t) < |t| && line == t[..k] && rest == t[k + BreakLength(t, k)..]
    ensures ReadJsonl(codec, t) == Then(ReadLines(codec, [line]), ReadJsonl(codec, rest))
  {
    ReadFirst(codec, t);
  }

  lemma FinalNewlineUnbroken(codec: Codec, t: string)
    requires FirstBreak(t) == |t|
    ensures ReadJsonl(codec, t + "\n") == ReadJsonl(codec, t)
  {
    assert t + "\n" + "" == t + "\n";
    ReadOneLine(codec, t, "");
    ThenNothing(ReadLines(codec, [t]));
  }

  /** Supplying the final newline changes no row. */
  lemma {:induction false} FinalNewline(codec: Codec, t: string)
    requires t == "" || t[|t| - 1] != '\n'
    ensures ReadJsonl(codec, t + "\n") == ReadJsonl(codec, t)
    decreases |t|
  {
    var k := FirstBreak(t);
    if k == |t| {
      FinalNewlineUnbroken(codec, t);
    } else if k == |t| - 1 && t[k] == '\r' {
      FinalReturn(t);
    } else {
      var rest := t[k + BreakLength(t, k)..];
      assert rest == "" || rest[|rest| - 1] == t[|t| - 1];
      FinalNewline(codec, rest);
      ReadFirstAt(codec, t, k, t[..k], rest);
      ReadFirstOf(codec, t, "\n");
    }
  }

  /** One printed record and the text after it: its own row first when it prints on one line,
      and no reading at all when it does not. */
  lemma ReadPrinted(codec: Codec, r: Record, u: string)
    requires Sound(codec) && codec.holds(r)
    ensures ReadJsonl(codec, codec.render(r) + "\n" + u) ==
            if OneLine(codec, r) then Then(Ok([r]), ReadJsonl(codec, u)) else Err
  {
    var text := codec.render(r);
    assert text[0] == '{' && !IsSpace('{');
    if OneLine(codec, r) {
      ReadOneLine(codec, text, u);
      ThenNothing(Ok([r]));
      assert ReadLines(codec, [text]) == Ok([r]);
    } else {
      var k, t := FirstBreak(text), text + "\n" + u;
      assert 0 < k < |text|;
      assert t[..k] == text[..k] && forall i | 0 <= i < |text| :: t[i] == text[i];
      FirstBreakAt(t, k);
      ReadFirst(codec, t);
      assert text[..k][0] == '{';
      assert codec.parse(text[..k]) == None;
    }
  }

  lemma {:induction false} ReadAllPrinted(codec: Codec, recs: seq<Record>)
    requires Sound(codec) && HoldsAll(codec, recs)
    ensures ReadJsonl(codec, Printed(codec, recs)) ==
            if AllOneLine(codec, recs) then Ok(recs) else Err
  {
    if recs != [] {
      ReadAllPrinted(codec, recs[1..]);
      ReadPrinted(codec, recs[0], Printed(codec, recs[1..]));
      assert recs == [recs[0]] + recs[1..];
      assert forall i | 0 < i < |recs| :: recs[i] == recs[1..][i - 1];
    }
  }

  /** The routed ledger, for ANY readable old file: reading after an append gives the old rows
      followed by the new ones exactly when every new record prints on one line; otherwise the
      file no longer reads at all. */
  lemma ReadAfterAppend(codec: Codec, t: string, recs: seq<Record>)
    requires Sound(codec) && HoldsAll(codec, recs)
    requires ReadJsonl(codec, t).Ok?
    ensures ReadJsonl(codec, Appended(codec, t, recs)) ==
            if AllOneLine(codec, recs) then Ok(ReadJsonl(codec, t).value + recs) else Err
  {
    if recs == [] {
      assert ReadJsonl(codec, t).value + recs == ReadJsonl(codec, t).value;
    } else {
      var guarded := if t != "" && t[|t| - 1] != '\n' then t + "\n" else t;
      if guarded != t {
        FinalNewline(codec, t);
      }
      SplitConcat(guarded, Printed(codec, recs));
      ReadLinesConcat(codec, SplitLines(guarded), SplitLines(Printed(codec, recs)));
      ReadAllPrinted(codec, recs);
    }
  }

  /** The unfinished last line of a text. */
  function LastLine(t: string): string {
    var k := FirstBreak(t);
    if k == |t| then t else LastLine(t[k + BreakLength(t, k)..])
  }

  /** A record printed onto the end of an unfinished line. */
  lemma ReadMergedLine(codec: Codec, line: string, r: Record, u: string)
    requires Sound(codec) && codec.holds(r) && OneLine(codec, r) && NoBreak(line)
    requires ReadLines(codec, [line]).Ok?
    ensures ReadJsonl(codec, line + (codec.render(r) + "\n" + u)) ==
            if JsonBlank(line) then Then(Ok([r]), ReadJsonl(codec, u)) else Err
  {
    var text := codec.render(r);
    var merged := line + text;
    assert line + (text + "\n" + u) == merged + "\n" + u;
    ReadOneLine(codec, merged, u);
    assert merged[|line|] == '{' && !IsSpace('{');
    ThenNothing(Ok([r]));
    if JsonBlank(line) {
      assert ReadLines(codec, [merged]) == Ok([r]);
    } else {
      assert codec.parse(merged) == None;
    }
  }

  lemma ReadAfterOneLine(codec: Codec, t: string, r: Record, u: string)
    requires Sound(codec) && codec.holds(r) && OneLine(codec, r)
    requires ReadJsonl(codec, t).Ok? && FirstBreak(t) == |t|
    ensures ReadJsonl(codec, t + (codec.render(r) + "\n" + u)) ==
            if JsonBlank(t) then Then(ReadJsonl(codec, t), Then(Ok([r]), ReadJsonl(codec, u))) else Err
  {
    assert ReadJsonl(codec, t) == ReadLines(codec, [t]);
    ReadMergedLine(codec, t, r, u);
    if JsonBlank(t) {
      assert Blank(t) && ReadJsonl(codec, t) == Ok([]);
      ThenNothing(Then(Ok([r]), ReadJsonl(codec, u)));
    }
  }

  lemma {:induction false} ReadAfterUnfinished(codec: Codec, t: string, r: Record, u: string)
    requires Sound(codec) && codec.holds(r) && OneLine(codec, r)
    requires ReadJsonl(codec, t).Ok?
    ensures ReadJsonl(codec, t + (codec.render(r) + "\n" + u)) ==
            if JsonBlank(LastLine(t)) then Then(ReadJsonl(codec, t), Then(Ok([r]), ReadJsonl(codec, u))) else Err
    decreases |t|
  {
    var k, v := FirstBreak(t), codec.render(r) + "\n" + u;
    if k == |t| {
      ReadAfterOneLine(codec, t, r, u);
    } else {
      var rest := t[k + BreakLength(t, k)..];
      ReadFirst(codec, t);
      ReadFirstOf(codec, t, v);
      ReadAfterUnfinished(codec, rest, r, u);
      ThenAssociative(ReadLines(codec, [t[..k]]), ReadJsonl(codec, rest), Then(Ok([r]), ReadJsonl(codec, u)));
    }
  }

  /** The evidence ledger: for records that print on one line, the law holds exactly when the
      file's last line is finished (or holds nothing but spaces and tabs); otherwise the file no
      longer reads. */
  lemma ReadAfterBareAppend(codec: Codec, t: string, recs: seq<Record>)
    requires Sound(codec) && ReadJsonl(codec, t).Ok?
    requires recs != [] && HoldsAll(codec, recs) && AllOneLine(codec, recs)
    ensures ReadJsonl(codec, AppendedBare(codec, t, recs)) ==
            if JsonBlank(LastLine(t)) then Ok(ReadJsonl(codec, t).value + recs) else Err
  {
    var first, rest := recs[0], recs[1..];
    HoldsRest(codec, recs);
    ReadAfterUnfinished(codec, t, first, Printed(codec, rest));
    ReadAllPrinted(codec, rest);
    assert Then(Ok([first]), Ok(rest)) == Ok(recs);
  }

  lemma HoldsRest(codec: Codec, recs: seq<Record>)
    requires recs != [] && HoldsAll(codec, recs) && AllOneLine(codec, recs)
    ensures codec.holds(recs[0]) && OneLine(codec, recs[0])
    ensures HoldsAll(codec, recs[1..]) && AllOneLine(codec, recs[1..])
    ensures [recs[0]] + recs[1..] == recs
  {
    assert forall i | 0 <= i < |recs| - 1 :: recs[1..][i] == recs[i + 1];
  }

  /** A file whose only record has lost its final newline is unreadable after the next append. */
  lemma BareAppendBreaksUnfinishedFile(codec: Codec, r: Record, s: Record)
    requires Sound(codec) && HoldsAll(codec, [r, s]) && AllOneLine(codec, [r, s])
    ensures ReadJsonl(codec, codec.render(r)) == Ok([r])
    ensures ReadJsonl(codec, AppendedBare(codec, codec.render(r), [s])) == Err
    ensures ReadJsonl(codec, Appended(codec, codec.render(r), [s])) == Ok([r, s])
  {
    assert [r, s][0] == r && [r, s][1] == s;
    var text := codec.render(r);
    FirstBreakAt(text, |text|);
    ThenNothing(Ok([r]));
    assert text[0] == '{' && !IsSpace('{');
    assert SplitLines(text) == [text] && ReadLines(codec, [text]) == Ok([r]);
    assert !JsonBlank(LastLine(text));
    ReadAfterBareAppend(codec, text, [s]);
    ReadAfterAppend(codec, text, [s]);
    assert [r] + [s] == [r, s];
  }

  /** ... an invariant its own writes keep: the last line is finished after every append. */
  lemma {:induction false} AppendFinishesLine(codec: Codec, t: string, recs: seq<Record>)
    requires LastLine(t) == ""
    ensures LastLine(AppendedBare(codec, t, recs)) == ""
    ensures recs != [] ==> AppendedBare(codec, t, recs)[|AppendedBare(codec, t, recs)| - 1] == '\n'
  {
    if recs == [] {
      assert t + "" == t;
    } else {
      EndsInNewline(codec, recs);
      LastLineOfNewline(t + Printed(codec, recs));
    }
  }

  lemma {:induction false} EndsInNewline(codec: Codec, recs: seq<Record>)
    requires recs != []
    ensures var p := Printed(codec, recs); p != "" && p[|p| - 1] == '\n'
  {
    if |recs| > 1 {
      EndsInNewline(codec, recs[1..]);
    }
  }

  lemma {:induction false} LastLineOfNewline(t: string)
    requires t != "" && t[|t| - 1] == '\n'
    ensures LastLine(t) == ""
    decreases |t|
  {
    var k := FirstBreak(t);
    var rest := t[k + BreakLength(t, k)..];
    if rest != "" {
      assert rest[|rest| - 1] == '\n';
      LastLineOfNewline(rest);
    }
  }
}
