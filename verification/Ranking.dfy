/** Competition ranking: equal entities share a rank, and a percentile says what share of the
    universe an entity beats or ties. Values are reals; the published percentile is that share, rounded. */
module Ranking {
  import opened Json
  import opened Sorting

  datatype Scored = Scored(entityId: string, value: real)

  /** A percentile before rounding: the share of the universe an entity beats or ties. */
  datatype Share = Share(part: int, whole: nat)
  {
    function Percent(): real
      requires whole > 0
    {
      100.0 * part as real / whole as real
    }
  }

  datatype Entry = Entry(rank: nat, entityId: string, value: real, percentile: Share)

  /** "Higher is better", unless the metric says otherwise. */
  predicate Reverse(higherIsBetter: Option<bool>) {
    higherIsBetter != Some(false)
  }

  predicate Better(reverse: bool, a: real, b: real) {
    if reverse then a > b else a < b
  }

  predicate Before(reverse: bool, a: Scored, b: Scored) {
    Better(reverse, a.value, b.value) || (a.value == b.value && TextLe(a.entityId, b.entityId))
  }

  function Order(reverse: bool): (Scored, Scored) -> bool {
    (a: Scored, b: Scored) => Before(reverse, a, b)
  }

  lemma OrderIsTotal(reverse: bool)
    ensures TotalPreorder(Order(reverse))
  {
    forall a: Scored, b: Scored ensures Order(reverse)(a, b) || Order(reverse)(b, a) {
      TextTotal(a.entityId, b.entityId);
    }
    forall a: Scored, b: Scored, c: Scored | Order(reverse)(a, b) && Order(reverse)(b, c) ensures Order(reverse)(a, c) {
      if a.value == b.value == c.value {
        TextTransitive(a.entityId, b.entityId, c.entityId);
      }
    }
  }

  ghost predicate InOrder(reverse: bool, s: seq<Scored>) {
    forall i, j | 0 <= i < j < |s| :: Before(reverse, s[i], s[j])
  }

  method SortValues(values: seq<Scored>, reverse: bool) returns (ordered: seq<Scored>)
    ensures InOrder(reverse, ordered) && multiset(ordered) == multiset(values)
  {
    OrderIsTotal(reverse);
    SortSorts(values, Order(reverse));
    ordered := Sort(values, Order(reverse));
    assert forall i, j | 0 <= i < j < |ordered| :: Order(reverse)(ordered[i], ordered[j]);
  }

  /** How many of these beat `v`. */
  function CountBetter(reverse: bool, values: seq<Scored>, v: real): nat {
    if values == [] then 0
    else CountBetter(reverse, values[..|values| - 1], v) + if Better(reverse, values[|values| - 1].value, v) then 1 else 0
  }

  function Scores(entries: seq<Entry>): seq<Scored> {
    seq(|entries|, i requires 0 <= i < |entries| => Scored(entries[i].entityId, entries[i].value))
  }

  /** The ranking, exactly: a permutation of the values in order, each with one more than the number
      of entities that beat it. */
  ghost predicate Exact(reverse: bool, values: seq<Scored>, entries: seq<Entry>) {
    && multiset(Scores(entries)) == multiset(values)
    && InOrder(reverse, Scores(entries))
    && (forall i | 0 <= i < |entries| ::
          && entries[i].rank == 1 + CountBetter(reverse, values, entries[i].value)
          && entries[i].percentile == Share(|entries| - (entries[i].rank - 1), |entries|))
  }

  /** In sorted order, exactly the entries before the first one of a tie beat it. */
  lemma {:induction false} BetterArePrefix(reverse: bool, s: seq<Scored>, first: nat, i: nat)
    requires InOrder(reverse, s) && first <= i < |s|
    requires forall j | first <= j <= i :: s[j].value == s[i].value
    requires first > 0 ==> s[first - 1].value != s[i].value
    ensures CountBetter(reverse, s, s[i].value) == first
  {
    assert forall j | 0 <= j < |s| :: j < first ==> Better(reverse, s[j].value, s[i].value) by {
      forall j | 0 <= j < first ensures Better(reverse, s[j].value, s[i].value) {
        assert Before(reverse, s[first - 1], s[i]);
        if j < first - 1 { assert Before(reverse, s[j], s[first - 1]); }
      }
    }
    forall j | i <= j < |s| ensures !Better(reverse, s[j].value, s[i].value) {
      if j > i { assert Before(reverse, s[i], s[j]); }
    }
    CountPrefix(reverse, s, first, s[i].value);
  }

  lemma {:induction false} CountPrefix(reverse: bool, s: seq<Scored>, k: nat, v: real)
    requires k <= |s|
    requires forall j | 0 <= j < |s| :: Better(reverse, s[j].value, v) <==> j < k
    ensures CountBetter(reverse, s, v) == k
  {
    if s != [] {
      var n := |s| - 1;
      assert forall j | 0 <= j < n :: s[..n][j] == s[j];
      CountPrefix(reverse, s[..n], if k == |s| then n else k, v);
    }
  }

  lemma {:induction false} CountPermutes(reverse: bool, a: seq<Scored>, b: seq<Scored>, v: real)
    requires multiset(a) == multiset(b)
    ensures CountBetter(reverse, a, v) == CountBetter(reverse, b, v)
    decreases |a|
  {
    assert |a| == |multiset(a)| == |multiset(b)| == |b|;
    if a != [] {
      var n := |a| - 1;
      assert a == a[..n] + [a[n]];
      assert a[n] in multiset(b);
      var k :| 0 <= k < |b| && b[k] == a[n];
      CountWithout(reverse, b, k, v);
      Without(b, k);
      assert multiset(a[..n]) == multiset(a) - multiset{a[n]};
      CountPermutes(reverse, a[..n], b[..k] + b[k + 1..], v);
    }
  }

  lemma {:induction false} CountWithout(reverse: bool, b: seq<Scored>, k: nat, v: real)
    requires k < |b|
    ensures CountBetter(reverse, b, v) == CountBetter(reverse, b[..k] + b[k + 1..], v) + if Better(reverse, b[k].value, v) then 1 else 0
  {
    var n := |b| - 1;
    if k == n {
      assert b[..k] + b[k + 1..] == b[..n];
    } else {
      var c := b[..k] + b[k + 1..];
      assert c[..|c| - 1] == b[..n][..k] + b[..n][k + 1..] && c[|c| - 1] == b[n];
      CountWithout(reverse, b[..n], k, v);
    }
  }

  /** The run of equal values the last of the first `i` belongs to began at `first`. */
  ghost predicate InRun(ordered: seq<Scored>, i: nat, first: nat) {
    && first < i <= |ordered|
    && (forall j | first <= j < i :: ordered[j].value == ordered[i - 1].value)
    && (first > 0 ==> ordered[first - 1].value != ordered[i - 1].value)
  }

  ghost predicate EntryIsRight(reverse: bool, ordered: seq<Scored>, e: Entry) {
    && e.rank == 1 + CountBetter(reverse, ordered, e.value)
    && e.percentile == Share(|ordered| - (e.rank - 1), |ordered|)
  }

  /** How far the loop has got. */
  ghost predicate Ranked(reverse: bool, ordered: seq<Scored>, entries: seq<Entry>, i: nat, first: nat, rank: nat,
                         previous: Option<real>) {
    && i <= |ordered| && Scores(entries) == ordered[..i]
    && (if i == 0 then previous == None
        else InRun(ordered, i, first) && rank == first + 1 && previous == Some(ordered[i - 1].value))
    && (forall j | 0 <= j < |entries| :: EntryIsRight(reverse, ordered, entries[j]))
  }

  lemma RunNext(ordered: seq<Scored>, i: nat, first: nat)
    requires i < |ordered| && (i > 0 ==> InRun(ordered, i, first))
    ensures InRun(ordered, i + 1, if i == 0 || ordered[i].value != ordered[i - 1].value then i else first)
  {
  }

  lemma RankNext(reverse: bool, ordered: seq<Scored>, entries: seq<Entry>, i: nat, first: nat, rank: nat,
                 previous: Option<real>)
    requires InOrder(reverse, ordered) && Ranked(reverse, ordered, entries, i, first, rank, previous) && i < |ordered|
    ensures var v := ordered[i].value; var starts := previous.None? || v != previous.value;
      var rank', first' := if starts then i + 1 else rank, if starts then i else first;
      Ranked(reverse, ordered,
             entries + [Entry(rank', ordered[i].entityId, v, Share(|ordered| - CountBetter(reverse, ordered, v), |ordered|))],
             i + 1, first', rank', Some(v))
  {
    var v := ordered[i].value;
    var first' := if i == 0 || v != ordered[i - 1].value then i else first;
    RunNext(ordered, i, first);
    BetterArePrefix(reverse, ordered, first', i);
    var e := Entry(first' + 1, ordered[i].entityId, v, Share(|ordered| - CountBetter(reverse, ordered, v), |ordered|));
    assert EntryIsRight(reverse, ordered, e);
    ScoresNext(entries, e, ordered, i);
  }

  lemma ScoresNext(entries: seq<Entry>, e: Entry, ordered: seq<Scored>, i: nat)
    requires i < |ordered| && Scores(entries) == ordered[..i] && Scored(e.entityId, e.value) == ordered[i]
    ensures Scores(entries + [e]) == ordered[..i + 1]
  {
    assert |entries| == |Scores(entries)|;
    assert Scores(entries + [e]) == Scores(entries) + [ordered[i]];
  }

  lemma RankedIsExact(reverse: bool, values: seq<Scored>, ordered: seq<Scored>, entries: seq<Entry>, first: nat,
                      rank: nat, previous: Option<real>)
    requires InOrder(reverse, ordered) && multiset(ordered) == multiset(values)
    requires Ranked(reverse, ordered, entries, |ordered|, first, rank, previous)
    ensures Exact(reverse, values, entries)
  {
    assert ordered[..|ordered|] == ordered;
    assert |entries| == |Scores(entries)|;
    forall i | 0 <= i < |entries| ensures entries[i].rank == 1 + CountBetter(reverse, values, entries[i].value) {
      assert Scores(entries)[i] == ordered[i];
      CountPermutes(reverse, ordered, values, entries[i].value);
    }
  }

  /** The ranking loop. */
  method RankEntries(values: seq<Scored>, higherIsBetter: Option<bool>) returns (entries: seq<Entry>)
    ensures Exact(Reverse(higherIsBetter), values, entries)
  {
    entries := [];
    var reverse := Reverse(higherIsBetter);
    var ordered := SortValues(values, reverse);
    var rank := 0;
    var previous: Option<real> := None;
    ghost var first := 0;
    for i := 0 to |ordered|
      invariant Ranked(reverse, ordered, entries, i, first, rank, previous)
    {
      RankNext(reverse, ordered, entries, i, first, rank, previous);
      var v := ordered[i].value;
      if previous.None? || v != previous.value {
        rank := i + 1;
        first := i;
      }
      previous := Some(v);
      var better := CountBetter(reverse, ordered, v);
      entries := entries + [Entry(rank, ordered[i].entityId, v, Share(|ordered| - better, |ordered|))];
    }
    RankedIsExact(reverse, values, ordered, entries, first, rank, previous);
  }

  // ------------------------------------------------------------- what a ranking says

  lemma {:induction false} CountMonotone(reverse: bool, values: seq<Scored>, v: real, w: real)
    requires !Better(reverse, w, v)
    ensures CountBetter(reverse, values, v) <= CountBetter(reverse, values, w)
  {
    if values != [] {
      CountMonotone(reverse, values[..|values| - 1], v, w);
    }
  }

  /** The publisher's own graph check accepts every exact ranking: entries are in rank order. */
  lemma ExactIsInOrder(reverse: bool, values: seq<Scored>, entries: seq<Entry>)
    requires Exact(reverse, values, entries)
    ensures forall i, j | 0 <= i < j < |entries| :: entries[i].rank <= entries[j].rank
  {
    forall i, j | 0 <= i < j < |entries| ensures entries[i].rank <= entries[j].rank {
      assert Before(reverse, Scores(entries)[i], Scores(entries)[j]);
      CountMonotone(reverse, values, entries[i].value, entries[j].value);
    }
  }

  /** The entries whose value is above, or below, this one. */
  ghost function Above(entries: seq<Entry>, v: real): set<int> {
    set k | 0 <= k < |entries| && entries[k].value > v
  }

  ghost function Below(entries: seq<Entry>, v: real): set<int> {
    set k | 0 <= k < |entries| && entries[k].value < v
  }

  lemma {:induction false} CountIsSet(reverse: bool, s: seq<Scored>, v: real)
    ensures CountBetter(reverse, s, v) == |set k | 0 <= k < |s| && (if reverse then s[k].value > v else s[k].value < v)|
  {
    var better := set k | 0 <= k < |s| && (if reverse then s[k].value > v else s[k].value < v);
    if s == [] {
      assert better == {};
    } else {
      var n := |s| - 1;
      CountIsSet(reverse, s[..n], v);
      var earlier := set k | 0 <= k < n && (if reverse then s[..n][k].value > v else s[..n][k].value < v);
      if (if reverse then s[n].value > v else s[n].value < v) {
        assert better == earlier + {n};
      } else {
        assert better == earlier;
      }
    }
  }

  lemma RankingOrder(reverse: bool, values: seq<Scored>, entries: seq<Entry>, i: int, j: int)
    requires Exact(reverse, values, entries) && 0 <= i < j < |entries|
    ensures if reverse then entries[i].value >= entries[j].value else entries[i].value <= entries[j].value
    ensures entries[i].value == entries[j].value ==> TextLe(entries[i].entityId, entries[j].entityId)
  {
    assert Before(reverse, Scores(entries)[i], Scores(entries)[j]);
  }

  lemma RankingCounts(reverse: bool, values: seq<Scored>, entries: seq<Entry>, i: int)
    requires Exact(reverse, values, entries) && 0 <= i < |entries|
    ensures entries[i].rank == |if reverse then Above(entries, entries[i].value) else Below(entries, entries[i].value)| + 1
  {
    var v, scores := entries[i].value, Scores(entries);
    CountPermutes(reverse, scores, values, v);
    CountIsSet(reverse, scores, v);
    assert (set k | 0 <= k < |scores| && (if reverse then scores[k].value > v else scores[k].value < v)) ==
           if reverse then Above(entries, v) else Below(entries, v);
  }

  /** A published ranking, in its own terms. Unless the metric says that lower is better, values
      descend and a rank is one more than the number of entries above; if it does, they ascend and
      it is the number below that counts. Equal values are in order of name, and the percentile is
      the part of the universe that is no better, out of a hundred. */
  lemma RankingIs(higherIsBetter: Option<bool>, values: seq<Scored>, entries: seq<Entry>)
    requires Exact(Reverse(higherIsBetter), values, entries)
    ensures higherIsBetter in {None, Some(true)} ==>
      && (forall i, j | 0 <= i < j < |entries| :: entries[i].value >= entries[j].value)
      && (forall i | 0 <= i < |entries| :: entries[i].rank == |Above(entries, entries[i].value)| + 1)
    ensures higherIsBetter == Some(false) ==>
      && (forall i, j | 0 <= i < j < |entries| :: entries[i].value <= entries[j].value)
      && (forall i | 0 <= i < |entries| :: entries[i].rank == |Below(entries, entries[i].value)| + 1)
    ensures forall i, j | 0 <= i < j < |entries| && entries[i].value == entries[j].value :: TextLe(entries[i].entityId, entries[j].entityId)
    ensures forall i | 0 <= i < |entries| ::
      entries[i].percentile.whole == |entries| && entries[i].percentile.part == |entries| + 1 - entries[i].rank
  {
    var reverse := Reverse(higherIsBetter);
    forall i, j | 0 <= i < j < |entries|
      ensures if reverse then entries[i].value >= entries[j].value else entries[i].value <= entries[j].value
      ensures entries[i].value == entries[j].value ==> TextLe(entries[i].entityId, entries[j].entityId)
    {
      RankingOrder(reverse, values, entries, i, j);
    }
    forall i | 0 <= i < |entries|
      ensures entries[i].rank == |if reverse then Above(entries, entries[i].value) else Below(entries, entries[i].value)| + 1
    {
      RankingCounts(reverse, values, entries, i);
    }
  }

  /** What a share comes to out of a hundred. */
  lemma PercentIs(share: Share)
    requires share.whole > 0
    ensures share.Percent() * share.whole as real == 100.0 * share.part as real
  {
  }

  /** Equal values share rank and percentile, and a better value has a strictly better rank and a
      strictly higher percentile: the rank alone says everything. */
  lemma RankSaysEverything(reverse: bool, values: seq<Scored>, entries: seq<Entry>, i: nat, j: nat)
    requires Exact(reverse, values, entries) && i < |entries| && j < |entries|
    ensures entries[i].value == entries[j].value <==> entries[i].rank == entries[j].rank
    ensures Better(reverse, entries[i].value, entries[j].value) <==> entries[i].rank < entries[j].rank
    ensures entries[i].percentile == Share(|entries| - (entries[i].rank - 1), |entries|)
    ensures 0.0 < entries[i].percentile.Percent() <= 100.0
  {
    StrictlyMore(reverse, values, entries, i, j);
    StrictlyMore(reverse, values, entries, j, i);
    CountBounded(reverse, values, entries, i);
  }

  lemma StrictlyMore(reverse: bool, values: seq<Scored>, entries: seq<Entry>, i: nat, j: nat)
    requires Exact(reverse, values, entries) && i < |entries| && j < |entries|
    ensures Better(reverse, entries[i].value, entries[j].value) ==> entries[i].rank < entries[j].rank
  {
    if Better(reverse, entries[i].value, entries[j].value) {
      assert Scores(entries)[i] in multiset(Scores(entries));
      assert Scores(entries)[i] in multiset(values);
      var k :| 0 <= k < |values| && values[k] == Scores(entries)[i];
      CountWithout(reverse, values, k, entries[i].value);
      CountWithout(reverse, values, k, entries[j].value);
      CountMonotone(reverse, values[..k] + values[k + 1..], entries[i].value, entries[j].value);
    }
  }

  lemma {:induction false} CountAtMost(reverse: bool, values: seq<Scored>, v: real)
    ensures CountBetter(reverse, values, v) <= |values|
  {
    if values != [] {
      CountAtMost(reverse, values[..|values| - 1], v);
    }
  }

  lemma CountBounded(reverse: bool, values: seq<Scored>, entries: seq<Entry>, i: nat)
    requires Exact(reverse, values, entries) && i < |entries|
    ensures entries[i].rank <= |entries| && 0.0 < entries[i].percentile.Percent() <= 100.0
  {
    var v, n := entries[i].value, |entries|;
    assert n == |Scores(entries)| == |multiset(Scores(entries))| == |multiset(values)| == |values|;
    assert Scores(entries)[i] in multiset(Scores(entries));
    assert Scores(entries)[i] in multiset(values);
    var k :| 0 <= k < |values| && values[k] == Scores(entries)[i];
    CountWithout(reverse, values, k, v);
    CountAtMost(reverse, values[..k] + values[k + 1..], v);
    var above := (n - (entries[i].rank - 1)) as real;
    assert 1.0 <= above <= n as real;
    assert entries[i].percentile.Percent() == 100.0 * above / n as real;
    ShareBounds(above, n as real);
  }

  lemma ShareBounds(part: real, whole: real)
    requires 1.0 <= part <= whole
    ensures 0.0 < 100.0 * part / whole <= 100.0
  {
    assert part / whole <= 1.0;
    assert part / whole > 0.0;
    assert 100.0 * part / whole == 100.0 * (part / whole);
  }

  // ------------------------------------------------------------- the context read off a ranking

  datatype Summary = Summary(minimum: Option<real>, maximum: Option<real>, bestEntityId: Option<string>, worstEntityId: Option<string>)

  datatype Context = Context(rank: nat, universeSize: nat, percentile: Share, bestValue: Option<real>, worstValue: Option<real>,
                             bestEntityId: Option<string>, worstEntityId: Option<string>)

  method Summarise(entries: seq<Entry>) returns (s: Summary)
    ensures entries == [] <==> s == Summary(None, None, None, None)
    ensures entries != [] ==>
      && s.minimum.Some? && s.maximum.Some?
      && (exists i :: 0 <= i < |entries| && entries[i].value == s.minimum.value)
      && (exists i :: 0 <= i < |entries| && entries[i].value == s.maximum.value)
      && (forall i | 0 <= i < |entries| :: s.minimum.value <= entries[i].value <= s.maximum.value)
      && s.bestEntityId == Some(entries[0].entityId) && s.worstEntityId == Some(entries[|entries| - 1].entityId)
  {
    if entries == [] {
      return Summary(None, None, None, None);
    }
    var low, high := entries[0].value, entries[0].value;
    for i := 1 to |entries|
      invariant exists j :: 0 <= j < i && entries[j].value == low
      invariant exists j :: 0 <= j < i && entries[j].value == high
      invariant forall j | 0 <= j < i :: low <= entries[j].value <= high
    {
      if entries[i].value < low { low := entries[i].value; }
      if entries[i].value > high { high := entries[i].value; }
    }
    s := Summary(Some(low), Some(high), Some(entries[0].entityId), Some(entries[|entries| - 1].entityId));
  }

  method ContextFromRanking(entries: seq<Entry>, s: Summary, higherIsBetter: Option<bool>, entityId: string)
    returns (context: Option<Context>)
    ensures context.None? <==> forall i | 0 <= i < |entries| :: entries[i].entityId != entityId
    ensures context.Some? ==>
      && (exists i :: 0 <= i < |entries| && entries[i].entityId == entityId
                      && (forall j | 0 <= j < i :: entries[j].entityId != entityId)
                      && context.value.rank == entries[i].rank && context.value.percentile == entries[i].percentile)
      && context.value.universeSize == |entries|
      && context.value.bestValue == (if Reverse(higherIsBetter) then s.maximum else s.minimum)
      && context.value.worstValue == (if Reverse(higherIsBetter) then s.minimum else s.maximum)
      && context.value.bestEntityId == s.bestEntityId && context.value.worstEntityId == s.worstEntityId
  {
    for i := 0 to |entries|
      invariant forall j | 0 <= j < i :: entries[j].entityId != entityId
    {
      if entries[i].entityId == entityId {
        var hib := Reverse(higherIsBetter);
        return Some(Context(entries[i].rank, |entries|, entries[i].percentile,
                            if hib then s.maximum else s.minimum, if hib then s.minimum else s.maximum,
                            s.bestEntityId, s.worstEntityId));
      }
    }
    context := None;
  }

  /** Of an exact ranking, the first entry holds the best value and the last the worst: the context
      never pairs an extreme value with another entity's name. */
  lemma ExtremesBelongToTheirEntities(higherIsBetter: Option<bool>, values: seq<Scored>, entries: seq<Entry>,
                                low: real, high: real)
    requires Exact(Reverse(higherIsBetter), values, entries) && entries != []
    requires exists i :: 0 <= i < |entries| && entries[i].value == low
    requires exists i :: 0 <= i < |entries| && entries[i].value == high
    requires forall i | 0 <= i < |entries| :: low <= entries[i].value <= high
    ensures entries[0].value == if Reverse(higherIsBetter) then high else low
    ensures entries[|entries| - 1].value == if Reverse(higherIsBetter) then low else high
  {
    var reverse, n := Reverse(higherIsBetter), |entries| - 1;
    var i :| 0 <= i < |entries| && entries[i].value == low;
    var j :| 0 <= j < |entries| && entries[j].value == high;
    assert i > 0 ==> Before(reverse, Scores(entries)[0], Scores(entries)[i]);
    assert j > 0 ==> Before(reverse, Scores(entries)[0], Scores(entries)[j]);
    assert i < n ==> Before(reverse, Scores(entries)[i], Scores(entries)[n]);
    assert j < n ==> Before(reverse, Scores(entries)[j], Scores(entries)[n]);
  }
}
