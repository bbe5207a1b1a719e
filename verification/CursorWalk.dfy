/** The client's cursor walks against an arbitrary server, and what `exhausted` earns.

    The server is whatever it answered: the payload it returned to each request in turn. A
    request past the last answer, or answered by none, failed in transport. */
module CursorWalk {
  import opened Json

  datatype Request = Request(limit: int, cursor: Option<string>)

  /** How a walk ended: the server had no more, the caller's budget ran out, an error was
      raised, or there was no budget to begin with. */
  datatype End = Exhausted | Truncated | Raised | NoBudget

  class WalkStats {
    var pages: nat
    var rows: nat
    var exhausted: bool
    var truncated: bool

    constructor ()
      ensures pages == 0 && rows == 0 && !exhausted && !truncated
    {
      pages, rows, exhausted, truncated := 0, 0, false, false;
    }
  }

  type Answer = Option<Record>

  // ------------------------------------------------------------- one page

  predicate HasList(a: Answer, key: string) {
    a.Some? && Get(a.value, key).List?
  }

  predicate AllObjects(items: seq<Value>) {
    forall i | 0 <= i < |items| :: items[i].Obj?
  }

  function Cursor(a: Answer): Value
    requires a.Some?
  {
    Or(Get(a.value, "cursor"), Str(""))
  }

  /** What a page says about the next one: an absent, empty or otherwise falsy cursor reads as none. */
  lemma CursorIs(payload: Record)
    ensures Cursor(Some(payload)) ==
            if "cursor" !in payload || payload["cursor"] in {Null, Bool(false), Num(0.0), Str(""), List([]), Obj(map[])}
            then Str("") else payload["cursor"]
  {
    FalsyAre(Get(payload, "cursor"), Str(""));
  }

  /** A page of objects whose cursor is text. */
  predicate GoodPage(a: Answer, key: string) {
    HasList(a, key) && AllObjects(Get(a.value, key).items) && Cursor(a).Str?
  }

  /** A good page that says there is more, and has something itself. */
  predicate LivePage(a: Answer, key: string) {
    GoodPage(a, key) && Cursor(a).s != "" && Get(a.value, key).items != []
  }

  predicate LastPage(a: Answer, key: string) {
    GoodPage(a, key) && Cursor(a).s == ""
  }

  function PageRows(a: Answer, key: string): seq<Value> {
    if HasList(a, key) then Get(a.value, key).items else []
  }

  /** A response without the collection has no rows at all, and is no page. */
  lemma PageRowsAre(payload: Record, key: string, items: seq<Value>)
    ensures HasList(Some(payload), key) && PageRows(Some(payload), key) == items <==> key in payload && payload[key] == List(items)
    ensures !HasList(None, key) && PageRows(None, key) == []
  {
  }

  /** The objects a page begins with. */
  function Leading(items: seq<Value>): seq<Value> {
    if items == [] || !items[0].Obj? then [] else [items[0]] + Leading(items[1..])
  }

  /** The rows of consecutive pages. */
  function Chain(answers: seq<Answer>, key: string): seq<Value> {
    if answers == [] then []
    else Chain(answers[..|answers| - 1], key) + PageRows(answers[|answers| - 1], key)
  }

  /** The first `n` answers each lead on to the next, by cursors that never repeat. */
  predicate Leads(answers: seq<Answer>, key: string, n: nat) {
    && n <= |answers|
    && (forall i | 0 <= i < n :: LivePage(answers[i], key))
    && (forall i, j | 0 <= i < j < n :: Cursor(answers[i]) != Cursor(answers[j]))
  }

  predicate Within(rows: seq<Value>, budget: Option<int>) {
    budget.None? || |rows| < budget.value
  }

  /** Why an error is right: no usable answer, an entry that is no object, a cursor that is no
      text or was seen before, or an empty page that claims there is more. */
  predicate Faulty(answers: seq<Answer>, key: string, n: nat) {
    n >= |answers| ||
    var a := answers[n];
    || !GoodPage(a, key)
    || (Cursor(a).s != "" && (Get(a.value, key).items == [] || exists i | 0 <= i < n && answers[i].Some? :: Cursor(answers[i]) == Cursor(a)))
  }

  /** The first `n` pages have been walked: each led on, and each request followed the cursor the
      page before it gave. */
  ghost predicate Followed(answers: seq<Answer>, key: string, requests: seq<Request>, n: nat) {
    && Leads(answers, key, n)
    && |requests| > 0 && requests[0].cursor == None
    && n < |requests|
    && (forall i | 0 <= i < n :: requests[i + 1].cursor == Some(Cursor(answers[i]).s))
  }

  /** What a walk may return: the pages before the last one requested all led on, and the last one
      ended it. */
  ghost predicate Walked(answers: seq<Answer>, key: string, budget: Option<int>,
                         rows: seq<Value>, requests: seq<Request>, how: End) {
    if how == NoBudget then budget.Some? && budget.value <= 0 && rows == [] && requests == []
    else
      && (budget.Some? ==> budget.value > 0)
      && |requests| >= 1
      && var n := |requests| - 1;
      && Followed(answers, key, requests, n)
      && Within(Chain(answers[..n], key), budget)
      && (how == Exhausted ==>
            n < |answers| && LastPage(answers[n], key) && rows == Chain(answers[..n + 1], key) && Within(rows, budget))
      && (how == Truncated ==>
            n < |answers| && rows <= Chain(answers[..n + 1], key) && budget == Some(|rows|) && AllObjects(rows))
      && (how == Raised ==>
            && Faulty(answers, key, n) && Within(rows, budget)
            && rows == Chain(answers[..n], key) + if n < |answers| then Leading(PageRows(answers[n], key)) else [])
  }

  /** The lesser of two numbers. */
  ghost predicate Least(n: int, a: int, b: int) {
    n <= a && n <= b && (n == a || n == b)
  }

  /** How much each request asks for: a full page, or with a shrinking budget no more than is left. */
  ghost predicate Limits(answers: seq<Answer>, key: string, budget: Option<int>, perPage: int, shrinking: bool,
                         requests: seq<Request>) {
    && |requests| <= |answers| + 1
    && forall i | 0 <= i < |requests| ::
         if shrinking && budget.Some? then Least(requests[i].limit, perPage, budget.value - |Chain(answers[..i], key)|)
         else requests[i].limit == perPage
  }

  /** How many of the answers a walk got a page from. */
  ghost function PagesGot(answers: seq<Answer>, key: string, requests: seq<Request>): int {
    if requests == [] then 0
    else |requests| - if |requests| <= |answers| && HasList(answers[|requests| - 1], key) then 0 else 1
  }

  // ------------------------------------------------------------- the walks

  lemma {:induction false} LeadingIs(items: seq<Value>, i: nat)
    requires i <= |items| && AllObjects(items[..i]) && (i < |items| ==> !items[i].Obj?)
    ensures Leading(items) == items[..i]
  {
    if i > 0 {
      assert items[..i][0] == items[0];
      assert items[1..][..i - 1] == items[..i][1..];
      LeadingIs(items[1..], i - 1);
    }
  }

  /** What to ask for when so many rows have been taken. */
  function LimitOf(budget: Option<int>, perPage: int, shrinking: bool, taken: int): int {
    if shrinking && budget.Some? then Min(perPage, budget.value - taken) else perPage
  }

  lemma LimitsNext(answers: seq<Answer>, key: string, budget: Option<int>, perPage: int, shrinking: bool,
                   requests: seq<Request>, r: Request, rows: seq<Value>)
    requires Limits(answers, key, budget, perPage, shrinking, requests) && |requests| <= |answers|
    requires rows == Chain(answers[..|requests|], key) && r.limit == LimitOf(budget, perPage, shrinking, |rows|)
    ensures Limits(answers, key, budget, perPage, shrinking, requests + [r])
  {
  }

  lemma PagesNext(answers: seq<Answer>, key: string, requests: seq<Request>, r: Request)
    ensures PagesGot(answers, key, requests + [r]) ==
            |requests| + if |requests| < |answers| && HasList(answers[|requests|], key) then 1 else 0
  {
    assert (requests + [r])[|requests|] == r;
  }

  /** One page's rows, one at a time, until the budget is spent or an entry is no object. */
  method TakeRows(items: seq<Value>, taken: seq<Value>, budget: Option<int>, stats: WalkStats)
    returns (rows: seq<Value>, how: Option<End>)
    requires Within(taken, budget)
    modifies stats`rows
    ensures stats.rows == old(stats.rows) + |rows| - |taken|
    ensures match how
      case None => rows == taken + items && AllObjects(items) && Leading(items) == items && Within(rows, budget)
      case Some(Truncated) => taken <= rows <= taken + items && budget == Some(|rows|) && AllObjects(rows[|taken|..])
      case Some(Raised) => !AllObjects(items) && rows == taken + Leading(items) && Within(rows, budget)
      case Some(_) => false
  {
    rows := taken;
    for i := 0 to |items|
      invariant rows == taken + items[..i] && AllObjects(items[..i]) && Within(rows, budget)
      invariant stats.rows == old(stats.rows) + |rows| - |taken|
    {
      if !items[i].Obj? {
        LeadingIs(items, i);
        return rows, Some(Raised);
      }
      assert items[..i + 1] == items[..i] + [items[i]];
      assert taken + items[..i + 1] == taken + items[..i] + [items[i]];
      rows := rows + [items[i]];
      stats.rows := stats.rows + 1;
      if budget.Some? && |rows| >= budget.value {
        assert rows[|taken|..] == items[..i + 1];
        return rows, Some(Truncated);
      }
    }
    assert items[..|items|] == items;
    LeadingIs(items, |items|);
    how := None;
  }

  function Min(a: int, b: int): int {
    if a < b then a else b
  }

  /** The cursors the walk has followed so far. */
  ghost predicate Seen(answers: seq<Answer>, n: nat, seen: set<string>) {
    && n <= |answers|
    && (forall i | 0 <= i < n :: answers[i].Some? && Cursor(answers[i]).Str? && Cursor(answers[i]).s in seen)
    && (forall c :: c in seen ==> exists i :: 0 <= i < n && answers[i].Some? && Cursor(answers[i]) == Str(c))
  }

  lemma ChainNext(answers: seq<Answer>, key: string, n: nat)
    requires n < |answers|
    ensures Chain(answers[..n + 1], key) == Chain(answers[..n], key) + PageRows(answers[n], key)
  {
    assert answers[..n + 1][..n] == answers[..n];
  }

  lemma {:induction false} ChainObjects(answers: seq<Answer>, key: string, n: nat)
    requires Leads(answers, key, n)
    ensures AllObjects(Chain(answers[..n], key))
  {
    if n > 0 {
      ChainObjects(answers, key, n - 1);
      ChainNext(answers, key, n - 1);
    }
  }

  /** Before request `n`: everything so far led on and fits the budget. */
  ghost predicate Underway(answers: seq<Answer>, key: string, budget: Option<int>, rows: seq<Value>,
                           requests: seq<Request>, cursor: Option<string>, seen: set<string>, n: nat) {
    && (budget.Some? ==> budget.value > 0)
    && |requests| == n && Leads(answers, key, n) && Seen(answers, n, seen)
    && rows == Chain(answers[..n], key) && Within(rows, budget)
    && (n > 0 ==> requests[0].cursor == None)
    && (forall i | 0 <= i < n - 1 :: requests[i + 1].cursor == Some(Cursor(answers[i]).s))
    && cursor == (if n == 0 then None else Some(Cursor(answers[n - 1]).s))
  }

  lemma Requested(answers: seq<Answer>, key: string, budget: Option<int>, rows: seq<Value>,
                  requests: seq<Request>, cursor: Option<string>, seen: set<string>, n: nat, limit: int)
    requires Underway(answers, key, budget, rows, requests, cursor, seen, n)
    ensures Followed(answers, key, requests + [Request(limit, cursor)], n)
  {
    var more := requests + [Request(limit, cursor)];
    forall i | 0 <= i < n ensures more[i + 1].cursor == Some(Cursor(answers[i]).s) {
      if i < n - 1 { assert more[i + 1] == requests[i + 1]; }
    }
  }

  lemma SeenNext(answers: seq<Answer>, n: nat, seen: set<string>, next: string)
    requires Seen(answers, n, seen) && n < |answers| && answers[n].Some? && Cursor(answers[n]) == Str(next)
    ensures Seen(answers, n + 1, seen + {next})
  {
    forall c | c in seen + {next} ensures exists i :: 0 <= i < n + 1 && answers[i].Some? && Cursor(answers[i]) == Str(c) {
      if c == next {
        assert Cursor(answers[n]) == Str(c);
      } else {
        var i :| 0 <= i < n && answers[i].Some? && Cursor(answers[i]) == Str(c);
      }
    }
  }

  lemma LeadsNext(answers: seq<Answer>, key: string, n: nat, seen: set<string>)
    requires Leads(answers, key, n) && Seen(answers, n, seen) && n < |answers|
    requires LivePage(answers[n], key) && Cursor(answers[n]).s !in seen
    ensures Leads(answers, key, n + 1)
  {
    forall i | 0 <= i < n ensures Cursor(answers[i]) != Cursor(answers[n]) {
      assert LivePage(answers[i], key) && Cursor(answers[i]).s in seen;
    }
  }

  lemma PageTaken(answers: seq<Answer>, key: string, budget: Option<int>, rows: seq<Value>,
                  requests: seq<Request>, cursor: Option<string>, seen: set<string>, n: nat, limit: int, next: string)
    requires Underway(answers, key, budget, rows, requests, cursor, seen, n) && n < |answers|
    requires LivePage(answers[n], key) && Cursor(answers[n]).s == next && next !in seen
    requires Within(rows + PageRows(answers[n], key), budget)
    ensures Underway(answers, key, budget, rows + PageRows(answers[n], key), requests + [Request(limit, cursor)],
                     Some(next), seen + {next}, n + 1)
  {
    ChainNext(answers, key, n);
    Requested(answers, key, budget, rows, requests, cursor, seen, n, limit);
    LeadsNext(answers, key, n, seen);
    SeenNext(answers, n, seen, next);
  }

  lemma EndsRaised(answers: seq<Answer>, key: string, budget: Option<int>, rows: seq<Value>, more: seq<Value>,
                   requests: seq<Request>, cursor: Option<string>, seen: set<string>, n: nat, limit: int)
    requires Underway(answers, key, budget, rows, requests, cursor, seen, n)
    requires Within(more, budget) && more == rows + if n < |answers| then Leading(PageRows(answers[n], key)) else []
    requires n == |answers| || !GoodPage(answers[n], key) ||
             (Cursor(answers[n]).s != "" && (Cursor(answers[n]).s in seen || PageRows(answers[n], key) == []))
    ensures Walked(answers, key, budget, more, requests + [Request(limit, cursor)], Raised)
  {
    Requested(answers, key, budget, rows, requests, cursor, seen, n, limit);
    FaultHere(answers, key, seen, n);
    assert |requests + [Request(limit, cursor)]| - 1 == n;
  }

  lemma FaultHere(answers: seq<Answer>, key: string, seen: set<string>, n: nat)
    requires Seen(answers, n, seen)
    requires n == |answers| || !GoodPage(answers[n], key) ||
             (Cursor(answers[n]).s != "" && (Cursor(answers[n]).s in seen || PageRows(answers[n], key) == []))
    ensures Faulty(answers, key, n)
  {
    if n < |answers| && GoodPage(answers[n], key) && Cursor(answers[n]).s in seen {
      var i :| 0 <= i < n && answers[i].Some? && Cursor(answers[i]) == Str(Cursor(answers[n]).s);
      assert Cursor(answers[i]) == Cursor(answers[n]);
    }
  }

  lemma EndsTruncated(answers: seq<Answer>, key: string, budget: Option<int>, rows: seq<Value>, more: seq<Value>,
                      requests: seq<Request>, cursor: Option<string>, seen: set<string>, n: nat, limit: int)
    requires Underway(answers, key, budget, rows, requests, cursor, seen, n) && n < |answers|
    requires rows <= more <= rows + PageRows(answers[n], key) && budget == Some(|more|) && AllObjects(more[|rows|..])
    ensures Walked(answers, key, budget, more, requests + [Request(limit, cursor)], Truncated)
  {
    Requested(answers, key, budget, rows, requests, cursor, seen, n, limit);
    ChainNext(answers, key, n);
    ChainObjects(answers, key, n);
    MoreObjects(rows, more);
    assert |requests + [Request(limit, cursor)]| - 1 == n;
  }

  lemma MoreObjects(rows: seq<Value>, more: seq<Value>)
    requires rows <= more && AllObjects(rows) && AllObjects(more[|rows|..])
    ensures AllObjects(more)
  {
    forall i | 0 <= i < |more| ensures more[i].Obj? {
      if i >= |rows| { assert more[i] == more[|rows|..][i - |rows|]; }
    }
  }

  lemma EndsExhausted(answers: seq<Answer>, key: string, budget: Option<int>, rows: seq<Value>,
                      requests: seq<Request>, cursor: Option<string>, seen: set<string>, n: nat, limit: int)
    requires Underway(answers, key, budget, rows, requests, cursor, seen, n) && n < |answers|
    requires LastPage(answers[n], key) && Within(rows + PageRows(answers[n], key), budget)
    ensures Walked(answers, key, budget, rows + PageRows(answers[n], key), requests + [Request(limit, cursor)], Exhausted)
  {
    Requested(answers, key, budget, rows, requests, cursor, seen, n, limit);
    ChainNext(answers, key, n);
    assert |requests + [Request(limit, cursor)]| - 1 == n;
  }

  /** What one page gives a walk that has taken these rows and followed these cursors: an error, the
      end of its budget, the end of everything, or the next cursor. */
  ghost predicate PageGives(a: Answer, key: string, budget: Option<int>, taken: seq<Value>, seen: set<string>,
                            rows: seq<Value>, next: string, how: Option<End>) {
    if !HasList(a, key) then rows == taken && how == Some(Raised)
    else
      match how
      case None => LivePage(a, key) && Cursor(a).s == next && next !in seen && rows == taken + PageRows(a, key) && Within(rows, budget)
      case Some(Exhausted) => LastPage(a, key) && rows == taken + PageRows(a, key) && Within(rows, budget)
      case Some(Truncated) =>
        taken <= rows <= taken + PageRows(a, key) && budget == Some(|rows|) && AllObjects(rows[|taken|..])
      case Some(Raised) =>
        && rows == taken + Leading(PageRows(a, key)) && Within(rows, budget)
        && (!GoodPage(a, key) || (Cursor(a).s != "" && (Cursor(a).s in seen || PageRows(a, key) == [])))
      case Some(NoBudget) => false
  }

  /** What a page whose rows have all been taken says about the next one. */
  method NextCursor(a: Answer, key: string, seen: set<string>) returns (next: string, how: Option<End>)
    requires HasList(a, key) && AllObjects(PageRows(a, key))
    ensures match how
      case None => LivePage(a, key) && Cursor(a).s == next && next !in seen
      case Some(Exhausted) => LastPage(a, key)
      case Some(Raised) => !GoodPage(a, key) || (Cursor(a).s != "" && (Cursor(a).s in seen || PageRows(a, key) == []))
      case Some(_) => false
  {
    next := "";
    if !Cursor(a).Str? {
      return next, Some(Raised);
    }
    next := Cursor(a).s;
    if next == "" {
      return next, Some(Exhausted);
    }
    how := if next in seen || PageRows(a, key) == [] then Some(Raised) else None;
  }

  /** One request and its answer. */
  method OnePage(a: Answer, key: string, budget: Option<int>, taken: seq<Value>, seen: set<string>, stats: WalkStats)
    returns (rows: seq<Value>, next: string, how: Option<End>)
    requires Within(taken, budget)
    modifies stats
    ensures PageGives(a, key, budget, taken, seen, rows, next, how)
    ensures stats.rows == old(stats.rows) + |rows| - |taken|
    ensures stats.exhausted == (old(stats.exhausted) || how == Some(Exhausted))
    ensures stats.truncated == (old(stats.truncated) || how == Some(Truncated))
    ensures stats.pages == old(stats.pages) + if HasList(a, key) then 1 else 0
  {
    rows, next, how := taken, "", Some(Raised);
    if HasList(a, key) {
      stats.pages := stats.pages + 1;
      rows, how := TakeRows(PageRows(a, key), taken, budget, stats);
      if how.None? {
        next, how := NextCursor(a, key, seen);
        stats.exhausted := stats.exhausted || how == Some(Exhausted);
      } else {
        stats.truncated := stats.truncated || how == Some(Truncated);
      }
    }
  }

  /** One page's rows, one at a time, until an entry is no object. */
  method TakeAll(items: seq<Value>, taken: seq<Value>) returns (rows: seq<Value>, good: bool)
    ensures good <==> AllObjects(items)
    ensures rows == taken + Leading(items) && (good ==> Leading(items) == items)
  {
    rows := taken;
    for i := 0 to |items|
      invariant rows == taken + items[..i] && AllObjects(items[..i])
    {
      if !items[i].Obj? {
        LeadingIs(items, i);
        return rows, false;
      }
      assert items[..i + 1] == items[..i] + [items[i]];
      assert taken + items[..i + 1] == taken + items[..i] + [items[i]];
      rows := rows + [items[i]];
    }
    assert items[..|items|] == items;
    LeadingIs(items, |items|);
    good := true;
  }

  /** The same without a budget: a page's rows are counted before they are read. */
  method OneWholePage(a: Answer, key: string, taken: seq<Value>, seen: set<string>, stats: WalkStats)
    returns (rows: seq<Value>, next: string, how: Option<End>)
    modifies stats
    ensures PageGives(a, key, None, taken, seen, rows, next, how) && how != Some(Truncated)
    ensures stats.exhausted == (old(stats.exhausted) || how == Some(Exhausted))
    ensures stats.truncated == old(stats.truncated)
    ensures stats.pages == old(stats.pages) + if HasList(a, key) then 1 else 0
    ensures stats.rows == old(stats.rows) + |PageRows(a, key)|
  {
    rows, next, how := taken, "", Some(Raised);
    if HasList(a, key) {
      var items := PageRows(a, key);
      stats.pages := stats.pages + 1;
      stats.rows := stats.rows + |items|;
      var good;
      rows, good := TakeAll(items, taken);
      if good {
        next, how := NextCursor(a, key, seen);
        stats.exhausted := stats.exhausted || how == Some(Exhausted);
      }
    }
  }

  /** A walk on its way: what it has, what it asked, and where it goes on. */
  datatype Walk = Walk(rows: seq<Value>, requests: seq<Request>, cursor: Option<string>, seen: set<string>)

  const UNSTARTED := Walk([], [], None, {})

  ghost predicate Going(answers: seq<Answer>, key: string, budget: Option<int>, perPage: int, shrinking: bool, w: Walk, n: nat) {
    Underway(answers, key, budget, w.rows, w.requests, w.cursor, w.seen, n) && Limits(answers, key, budget, perPage, shrinking, w.requests)
  }

  /** The walk is over: it returned what it may, and asked for no more than it should. */
  ghost predicate Gone(answers: seq<Answer>, key: string, budget: Option<int>, perPage: int, shrinking: bool,
                       rows: seq<Value>, requests: seq<Request>, how: End) {
    Walked(answers, key, budget, rows, requests, how) && Limits(answers, key, budget, perPage, shrinking, requests)
  }

  lemma Unstarted(answers: seq<Answer>, key: string, budget: Option<int>, perPage: int, shrinking: bool)
    requires budget.Some? ==> budget.value > 0
    ensures Going(answers, key, budget, perPage, shrinking, UNSTARTED, 0)
  {
  }

  lemma NothingAsked(answers: seq<Answer>, key: string, budget: Option<int>, perPage: int, shrinking: bool)
    requires budget.Some? && budget.value <= 0
    ensures Gone(answers, key, budget, perPage, shrinking, [], [], NoBudget) && PagesGot(answers, key, []) == 0
  {
  }

  /** The walk after one page. */
  function Turned(budget: Option<int>, perPage: int, shrinking: bool, w: Walk, rows: seq<Value>, next: string): Walk {
    Walk(rows, w.requests + [Request(LimitOf(budget, perPage, shrinking, |w.rows|), w.cursor)], Some(next), w.seen + {next})
  }

  lemma TurnIs(answers: seq<Answer>, key: string, budget: Option<int>, perPage: int, shrinking: bool, w: Walk, n: nat,
               rows: seq<Value>, next: string, how: Option<End>)
    requires Going(answers, key, budget, perPage, shrinking, w, n) && n < |answers|
    requires PageGives(answers[n], key, budget, w.rows, w.seen, rows, next, how)
    ensures var w' := Turned(budget, perPage, shrinking, w, rows, next);
      && (how.None? ==> Going(answers, key, budget, perPage, shrinking, w', n + 1))
      && (how.Some? ==> Gone(answers, key, budget, perPage, shrinking, rows, w'.requests, how.value))
      && |w'.requests| == n + 1
      && PagesGot(answers, key, w'.requests) == n + (if HasList(answers[n], key) then 1 else 0)
      && (how.None? ==> HasList(answers[n], key))
  {
    var limit := LimitOf(budget, perPage, shrinking, |w.rows|);
    LimitsNext(answers, key, budget, perPage, shrinking, w.requests, Request(limit, w.cursor), w.rows);
    PagesNext(answers, key, w.requests, Request(limit, w.cursor));
    match how
    case None => PageTaken(answers, key, budget, w.rows, w.requests, w.cursor, w.seen, n, limit, next);
    case Some(Exhausted) => EndsExhausted(answers, key, budget, w.rows, w.requests, w.cursor, w.seen, n, limit);
    case Some(Truncated) => EndsTruncated(answers, key, budget, w.rows, rows, w.requests, w.cursor, w.seen, n, limit);
    case Some(Raised) =>
      if !HasList(answers[n], key) { assert rows == w.rows + Leading(PageRows(answers[n], key)); }
      EndsRaised(answers, key, budget, w.rows, rows, w.requests, w.cursor, w.seen, n, limit);
  }

  /** The request that is not answered. */
  method LastTurn(answers: seq<Answer>, key: string, budget: Option<int>, perPage: int, shrinking: bool, w: Walk)
    returns (requests: seq<Request>)
    requires Going(answers, key, budget, perPage, shrinking, w, |answers|)
    ensures Gone(answers, key, budget, perPage, shrinking, w.rows, requests, Raised)
    ensures PagesGot(answers, key, requests) == |answers| && |requests| == |answers| + 1
  {
    var limit := LimitOf(budget, perPage, shrinking, |w.rows|);
    requests := w.requests + [Request(limit, w.cursor)];
    LimitsNext(answers, key, budget, perPage, shrinking, w.requests, Request(limit, w.cursor), w.rows);
    PagesNext(answers, key, w.requests, Request(limit, w.cursor));
    EndsRaised(answers, key, budget, w.rows, w.rows, w.requests, w.cursor, w.seen, |answers|, limit);
  }

  lemma GoingWithin(answers: seq<Answer>, key: string, budget: Option<int>, perPage: int, shrinking: bool, w: Walk, n: nat)
    requires Going(answers, key, budget, perPage, shrinking, w, n)
    ensures Within(w.rows, budget) && n <= |answers| && w.rows == Chain(answers[..n], key)
  {
  }

  /** One turn of a walk with a budget. */
  method Turn(answers: seq<Answer>, key: string, budget: Option<int>, perPage: int, shrinking: bool, w: Walk, n: nat, stats: WalkStats)
    returns (w': Walk, how: Option<End>)
    requires Going(answers, key, budget, perPage, shrinking, w, n) && n < |answers|
    modifies stats
    ensures how.None? ==> Going(answers, key, budget, perPage, shrinking, w', n + 1)
    ensures how.Some? ==> Gone(answers, key, budget, perPage, shrinking, w'.rows, w'.requests, how.value)
    ensures stats.rows == old(stats.rows) + |w'.rows| - |w.rows|
    ensures stats.exhausted == (old(stats.exhausted) || how == Some(Exhausted))
    ensures stats.truncated == (old(stats.truncated) || how == Some(Truncated))
    ensures stats.pages == old(stats.pages) + PagesGot(answers, key, w'.requests) - n
    ensures how.None? ==> stats.pages == old(stats.pages) + 1
  {
    GoingWithin(answers, key, budget, perPage, shrinking, w, n);
    var rows, next;
    rows, next, how := OnePage(answers[n], key, budget, w.rows, w.seen, stats);
    TurnIs(answers, key, budget, perPage, shrinking, w, n, rows, next, how);
    w' := Turned(budget, perPage, shrinking, w, rows, next);
  }

  /** One turn of a walk without one. */
  method WholeTurn(answers: seq<Answer>, key: string, perPage: int, w: Walk, n: nat, stats: WalkStats)
    returns (w': Walk, how: Option<End>)
    requires Going(answers, key, None, perPage, false, w, n) && n < |answers|
    modifies stats
    ensures how.None? ==> Going(answers, key, None, perPage, false, w', n + 1)
    ensures how.Some? ==> how.value in {Exhausted, Raised} && Gone(answers, key, None, perPage, false, w'.rows, w'.requests, how.value)
    ensures |w'.requests| == n + 1
    ensures stats.rows == old(stats.rows) + ChainLength(answers, key, n + 1) - ChainLength(answers, key, n)
    ensures stats.exhausted == (old(stats.exhausted) || how == Some(Exhausted))
    ensures stats.truncated == old(stats.truncated)
    ensures stats.pages == old(stats.pages) + PagesGot(answers, key, w'.requests) - n
    ensures how.None? ==> stats.pages == old(stats.pages) + 1
  {
    GoingWithin(answers, key, None, perPage, false, w, n);
    ChainNext(answers, key, n);
    var rows, next;
    rows, next, how := OneWholePage(answers[n], key, w.rows, w.seen, stats);
    TurnIs(answers, key, None, perPage, false, w, n, rows, next, how);
    w' := Turned(None, perPage, false, w, rows, next);
  }

  /** How many rows the first `n` answers hold. */
  ghost function ChainLength(answers: seq<Answer>, key: string, n: nat): nat
    requires n <= |answers|
  {
    |Chain(answers[..n], key)|
  }

  /** The fills walk (`shrinking`: a request asks for no more than is left) and the orders walk.
      `budget` is None for an unbounded walk. */
  method BoundedPages(answers: seq<Answer>, key: string, budget: Option<int>, perPage: int, shrinking: bool,
                      stats: WalkStats)
    returns (rows: seq<Value>, requests: seq<Request>, how: End)
    modifies stats
    ensures Gone(answers, key, budget, perPage, shrinking, rows, requests, how)
    ensures stats.rows == old(stats.rows) + |rows|
    ensures stats.exhausted == (old(stats.exhausted) || how == Exhausted)
    ensures stats.truncated == (old(stats.truncated) || how == Truncated)
    ensures stats.pages == old(stats.pages) + PagesGot(answers, key, requests)
  {
    if budget.Some? && budget.value <= 0 {
      NothingAsked(answers, key, budget, perPage, shrinking);
      return [], [], NoBudget;
    }
    rows, requests, how := Pages(answers, key, budget, perPage, shrinking, stats);
  }

  /** The same with something to spend. */
  method Pages(answers: seq<Answer>, key: string, budget: Option<int>, perPage: int, shrinking: bool, stats: WalkStats)
    returns (rows: seq<Value>, requests: seq<Request>, how: End)
    requires budget.Some? ==> budget.value > 0
    modifies stats
    ensures Gone(answers, key, budget, perPage, shrinking, rows, requests, how)
    ensures stats.rows == old(stats.rows) + |rows|
    ensures stats.exhausted == (old(stats.exhausted) || how == Exhausted)
    ensures stats.truncated == (old(stats.truncated) || how == Truncated)
    ensures stats.pages == old(stats.pages) + PagesGot(answers, key, requests)
  {
    var w := UNSTARTED;
    Unstarted(answers, key, budget, perPage, shrinking);
    for n := 0 to |answers|
      invariant Going(answers, key, budget, perPage, shrinking, w, n)
      invariant stats.rows == old(stats.rows) + |w.rows| && stats.pages == old(stats.pages) + n
      invariant stats.exhausted == old(stats.exhausted) && stats.truncated == old(stats.truncated)
    {
      var stopped;
      w, stopped := Turn(answers, key, budget, perPage, shrinking, w, n, stats);
      if stopped.Some? {
        return w.rows, w.requests, stopped.value;
      }
    }
    requests := LastTurn(answers, key, budget, perPage, shrinking, w);
    return w.rows, requests, Raised;
  }

  /** The orders walk: a positive bound is mandatory, and a page is never asked for more than it. */
  method Orders(answers: seq<Answer>, maxOrders: int, pageLimit: int, stats: WalkStats)
    returns (rows: seq<Value>, requests: seq<Request>, how: End)
    modifies stats
    ensures maxOrders < 1 ==> how == Raised && rows == [] && requests == []
    ensures maxOrders >= 1 ==> Walked(answers, "orders", Some(maxOrders), rows, requests, how)
    ensures forall i | 0 <= i < |requests| :: Least(requests[i].limit, pageLimit, maxOrders)
    ensures stats.rows == old(stats.rows) + |rows| && stats.pages == old(stats.pages) + PagesGot(answers, "orders", requests)
    ensures stats.exhausted == (old(stats.exhausted) || how == Exhausted)
    ensures stats.truncated == (old(stats.truncated) || how == Truncated)
  {
    if maxOrders < 1 {
      return [], [], Raised;
    }
    rows, requests, how := BoundedPages(answers, "orders", Some(maxOrders), Min(pageLimit, maxOrders), false, stats);
  }

  /** The walk over a whole collection, which takes no budget: the only way it ends without an
      error is that the server had no more. */
  method CollectionPages(answers: seq<Answer>, key: string, perPage: int, stats: WalkStats)
    returns (rows: seq<Value>, requests: seq<Request>, how: End)
    modifies stats
    ensures Gone(answers, key, None, perPage, false, rows, requests, how) && how in {Exhausted, Raised}
    ensures stats.exhausted == (old(stats.exhausted) || how == Exhausted)
    ensures stats.truncated == old(stats.truncated)
    ensures stats.pages == old(stats.pages) + PagesGot(answers, key, requests)
    ensures stats.rows == old(stats.rows) + ChainLength(answers, key, if |requests| <= |answers| then |requests| else |answers|)
  {
    var w := UNSTARTED;
    Unstarted(answers, key, None, perPage, false);
    for n := 0 to |answers|
      invariant Going(answers, key, None, perPage, false, w, n)
      invariant stats.rows == old(stats.rows) + ChainLength(answers, key, n) && stats.pages == old(stats.pages) + n
      invariant stats.exhausted == old(stats.exhausted) && stats.truncated == old(stats.truncated)
    {
      var stopped;
      w, stopped := WholeTurn(answers, key, perPage, w, n, stats);
      if stopped.Some? {
        return w.rows, w.requests, stopped.value;
      }
    }
    requests := LastTurn(answers, key, None, perPage, false, w);
    return w.rows, requests, Raised;
  }

  // ------------------------------------------------------------- what a walk earns

  lemma {:induction false} ChainIsLong(answers: seq<Answer>, key: string, n: nat)
    requires Leads(answers, key, n)
    ensures |Chain(answers[..n], key)| >= n
  {
    if n > 0 {
      ChainIsLong(answers, key, n - 1);
      ChainNext(answers, key, n - 1);
    }
  }

  /** A bounded walk issues at most as many requests as rows were asked for. */
  lemma RequestsWithinBudget(answers: seq<Answer>, key: string, budget: int, rows: seq<Value>, requests: seq<Request>,
                             how: End)
    requires Walked(answers, key, Some(budget), rows, requests, how)
    ensures requests == [] || |requests| <= budget
  {
    if how != NoBudget {
      ChainIsLong(answers, key, |requests| - 1);
    }
  }

  lemma {:induction false} ChainGrows(answers: seq<Answer>, key: string, m: nat, n: nat)
    requires m <= n <= |answers|
    ensures Chain(answers[..m], key) <= Chain(answers[..n], key)
  {
    if m < n {
      ChainGrows(answers, key, m, n - 1);
      ChainNext(answers, key, n - 1);
    }
  }

  /** An exhausted walk got to the last page. */
  lemma ExhaustedIsExact(answers: seq<Answer>, key: string, last: nat, budget: Option<int>, rows: seq<Value>, requests: seq<Request>)
    requires last < |answers| && Leads(answers, key, last) && LastPage(answers[last], key)
    requires Walked(answers, key, budget, rows, requests, Exhausted)
    ensures rows == Chain(answers[..last + 1], key) && |requests| == last + 1 && (budget.Some? ==> budget.value > |rows|)
  {
    var n := |requests| - 1;
    NotBeyondLast(answers, key, last, n);
  }

  lemma TruncatedIsExact(answers: seq<Answer>, key: string, last: nat, budget: Option<int>, rows: seq<Value>, requests: seq<Request>)
    requires last < |answers| && Leads(answers, key, last) && LastPage(answers[last], key)
    requires Walked(answers, key, budget, rows, requests, Truncated)
    ensures budget == Some(|rows|) && |rows| > 0 && rows <= Chain(answers[..last + 1], key)
  {
    var n := |requests| - 1;
    NotBeyondLast(answers, key, last, n);
    ChainGrows(answers, key, n + 1, last + 1);
  }

  lemma NeverRaised(answers: seq<Answer>, key: string, last: nat, budget: Option<int>, rows: seq<Value>, requests: seq<Request>)
    requires last < |answers| && Leads(answers, key, last) && LastPage(answers[last], key)
    ensures !Walked(answers, key, budget, rows, requests, Raised)
  {
    if Walked(answers, key, budget, rows, requests, Raised) {
      NotBeyondLast(answers, key, last, |requests| - 1);
      NoFault(answers, key, last, |requests| - 1);
    }
  }

  /** Against a server whose pages lead to a last one, no walk raises: it is exhausted exactly when
      it has no budget or one larger than everything there is, and then it yields all of it;
      otherwise it is truncated, after exactly the budget. */
  lemma WalkIsExact(answers: seq<Answer>, key: string, last: nat, budget: Option<int>,
                    rows: seq<Value>, requests: seq<Request>, how: End)
    requires last < |answers| && Leads(answers, key, last) && LastPage(answers[last], key)
    requires Walked(answers, key, budget, rows, requests, how)
    ensures var all := Chain(answers[..last + 1], key);
      && how != Raised
      && (how == Exhausted <==> budget.None? || budget.value > |all|)
      && (how == Exhausted ==> rows == all && |requests| == last + 1)
      && (how == Truncated <==> budget.Some? && 0 < budget.value <= |all|)
      && (how == Truncated ==> rows == all[..budget.value])
  {
    match how
    case Exhausted => ExhaustedIsExact(answers, key, last, budget, rows, requests);
    case Truncated => TruncatedIsExact(answers, key, last, budget, rows, requests);
    case Raised => NeverRaised(answers, key, last, budget, rows, requests);
    case NoBudget =>
  }

  lemma NotBeyondLast(answers: seq<Answer>, key: string, last: nat, n: nat)
    requires last < |answers| && LastPage(answers[last], key) && Leads(answers, key, n)
    ensures n <= last
  {
  }

  lemma NoFault(answers: seq<Answer>, key: string, last: nat, n: nat)
    requires n <= last < |answers| && Leads(answers, key, last) && LastPage(answers[last], key)
    ensures !Faulty(answers, key, n)
  {
    if n < last {
      assert LivePage(answers[n], key);
    }
  }

  /** A server that repeats a cursor, or claims more after an empty page, is never walked past
      that page: the walk raises there or has already spent its budget. */
  lemma NoLoop(answers: seq<Answer>, key: string, budget: Option<int>, rows: seq<Value>, requests: seq<Request>,
               how: End, bad: nat)
    requires Walked(answers, key, budget, rows, requests, how)
    requires bad < |answers| && GoodPage(answers[bad], key) && Cursor(answers[bad]).s != ""
    requires PageRows(answers[bad], key) == [] || exists i :: 0 <= i < bad && answers[i].Some? && Cursor(answers[i]) == Cursor(answers[bad])
    ensures |requests| <= bad + 1
    ensures |requests| == bad + 1 ==> how in {Raised, Truncated}
  {
  }
}
