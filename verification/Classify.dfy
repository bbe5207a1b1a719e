/** The classification hierarchy: five levels of evidence, strongest first, that fail closed, and the
    rule by which a combo inherits what its legs already earned. Matched text is input here. */
module Classify {
  import opened Json
  import Sorting

  datatype Sport = MLB | NFL | CFB | NHL | NBA | SOCCER | TENNIS | OTHER | UNRESOLVED

  const ROUTABLE_SPORTS := {MLB, NFL, CFB, NHL, NBA, SOCCER, TENNIS}

  datatype Level = L1_EVENT_COMPETITION | L2_SPORT_TAXONOMY | L3_MILESTONE | L4_SERIES_METADATA
                 | L5_SERIES_REGISTRY | COMBO_LEGS

  const COMPETITION_LEVELS := {L1_EVENT_COMPETITION, L2_SPORT_TAXONOMY, L3_MILESTONE}

  datatype Reason =
    | METADATA_LOOKUP_FAILED | NO_METADATA | MALFORMED_EVENT_METADATA
    | COMPETITION_ABSENT | COMPETITION_UNKNOWN | COMPETITION_AMBIGUOUS | MILESTONE_CONFLICT
    | EVIDENCE_CONFLICT | AMBIGUOUS_FAMILY | INSUFFICIENT
    | COMBO_LEGS_UNAVAILABLE | COMBO_LEG_UNRESOLVED | COMBO_LEGS_SPAN_SPORTS

  const COMBO_COMPLETABLE := {COMPETITION_ABSENT, INSUFFICIENT}

  /** What one level says: a sport, or why it refuses to name one. */
  datatype Verdict = Verdict(level: Level, sport: Option<Sport>, reason: Option<Reason>)

  /** The project's own tables. `members` is None for a sport name the table does not know. */
  datatype Rules = Rules(
    direct: string -> Option<Sport>,
    members: string -> Option<set<Sport>>,
    excludes: (Sport, string) -> bool,
    fromTaxonomySport: string -> Option<Sport>,
    isAmbiguousSport: string -> bool)

  /** The exchange's own catalogue of competitions. */
  datatype Taxonomy = Taxonomy(isAmbiguous: string -> bool, claimants: string -> seq<string>, sportFor: string -> Option<string>)

  datatype Milestones = Milestones(isConflicted: string -> bool, competitionFor: string -> Option<string>)

  datatype Sources = Sources(rules: Rules, taxonomy: Option<Taxonomy>, milestones: Option<Milestones>)

  datatype Scope = LEAGUE | RIVAL_SPORT | CATEGORY | FAMILY

  /** One authoritative match in the series metadata. */
  datatype Found = Found(scope: Scope, sport: Sport)

  datatype RegistryEntry = RegistryEntry(sport: Sport, verified: bool)

  /** One market's own evidence, as its metadata shows it. */
  datatype Evidence = Evidence(
    lookupFailed: bool, malformed: bool, anyMetadata: bool, hasEventMetadata: bool,
    competition: Option<string>, eventTicker: Option<string>,
    found: seq<Found>, registry: Option<RegistryEntry>)

  /** A market; `legs` are the tickers its legs state, if it has any. */
  datatype Context = Context(evidence: Evidence, legs: seq<Option<string>>, inCollection: bool)

  datatype Classification = Classification(sport: Sport, resolvedBy: Option<Level>, reason: Option<Reason>,
                                           unverified: bool, conflict: bool, rescuableBy: Option<Level>)

  // ------------------------------------------------------------- L1 and L2: the event's competition

  datatype Role = UNKNOWN | IRRELEVANT | RIVAL | AFFIRMING

  /** What one claimant of a competition says about the direct answer. */
  function RoleOf(r: Rules, competition: string, direct: Sport, claimant: string): Role {
    match r.members(claimant)
    case None => UNKNOWN
    case Some(members) =>
      if members == {} then IRRELEVANT
      else if direct in members then AFFIRMING
      else if forall m | m in members :: r.excludes(m, competition) then IRRELEVANT
      else RIVAL
  }

  function CountAffirming(r: Rules, competition: string, direct: Sport, claimants: seq<string>): nat {
    if claimants == [] then 0
    else CountAffirming(r, competition, direct, claimants[..|claimants| - 1]) +
         if RoleOf(r, competition, direct, claimants[|claimants| - 1]) == AFFIRMING then 1 else 0
  }

  /** When the catalogue agrees with the direct answer: exactly one claimant holds it, and no claimant is a
      rival or unknown. */
  predicate Affirms(r: Rules, competition: string, direct: Option<Sport>, claimants: seq<string>) {
    && direct.Some?
    && (forall i | 0 <= i < |claimants| :: RoleOf(r, competition, direct.value, claimants[i]) in {IRRELEVANT, AFFIRMING})
    && CountAffirming(r, competition, direct.value, claimants) == 1
  }

  method TaxonomyAffirms(r: Rules, competition: string, direct: Option<Sport>,
                         claimants: seq<string>) returns (affirms: bool)
    ensures affirms == Affirms(r, competition, direct, claimants)
  {
    if direct.None? || claimants == [] {
      return false;
    }
    var affirming := 0;
    for i := 0 to |claimants|
      invariant affirming == CountAffirming(r, competition, direct.value, claimants[..i])
      invariant forall j | 0 <= j < i :: RoleOf(r, competition, direct.value, claimants[j]) in {IRRELEVANT, AFFIRMING}
    {
      assert claimants[..i + 1][..i] == claimants[..i];
      var members := r.members(claimants[i]);
      if members.None? {
        return false;
      }
      if members.value == {} {
        continue;
      }
      if direct.value !in members.value && forall m | m in members.value :: r.excludes(m, competition) {
        continue;
      }
      if direct.value !in members.value {
        return false;
      }
      affirming := affirming + 1;
    }
    assert claimants[..|claimants|] == claimants;
    affirms := affirming == 1;
  }

  function CompetitionVerdict(src: Sources, c: Evidence): Option<Verdict> {
    if c.competition.None? then None
    else
      var name := c.competition.value;
      var direct := src.rules.direct(name);
      if src.taxonomy.Some? && src.taxonomy.value.isAmbiguous(name)
         && !Affirms(src.rules, name, direct, src.taxonomy.value.claimants(name)) then
        Some(Verdict(L2_SPORT_TAXONOMY, None, Some(COMPETITION_AMBIGUOUS)))
      else if direct.Some? then Some(Verdict(L1_EVENT_COMPETITION, direct, None))
      else
        var sport := if src.taxonomy.Some? then src.taxonomy.value.sportFor(name) else None;
        if sport.Some? && sport.value != "" then
          (if src.rules.fromTaxonomySport(sport.value).Some?
           then Some(Verdict(L2_SPORT_TAXONOMY, src.rules.fromTaxonomySport(sport.value), None))
           else Some(Verdict(L2_SPORT_TAXONOMY, None, Some(COMPETITION_UNKNOWN))))
        else Some(Verdict(L1_EVENT_COMPETITION, None, Some(COMPETITION_UNKNOWN)))
  }

  // ------------------------------------------------------------- L3, L4, L5

  function MilestoneVerdict(src: Sources, c: Evidence): Option<Verdict> {
    if src.milestones.None? || c.eventTicker.None? || c.eventTicker.value == "" then None
    else if src.milestones.value.isConflicted(c.eventTicker.value) then
      Some(Verdict(L3_MILESTONE, None, Some(MILESTONE_CONFLICT)))
    else
      var competition := src.milestones.value.competitionFor(c.eventTicker.value);
      if competition.None? || competition.value == "" || src.rules.direct(competition.value).None? then None
      else Some(Verdict(L3_MILESTONE, src.rules.direct(competition.value), None))
  }

  function Leagues(found: seq<Found>): set<Sport> {
    set i | 0 <= i < |found| && found[i].sport in ROUTABLE_SPORTS :: found[i].sport
  }

  predicate Any(found: seq<Found>, scope: Scope) {
    exists i | 0 <= i < |found| :: found[i].scope == scope
  }

  lemma {:induction false} OnlyMember<T>(s: set<T>)
    requires |s| == 1
    ensures exists x :: s == {x}
    ensures forall x, y | x in s && y in s :: x == y
  {
    var x :| x in s;
    assert |s - {x}| == 0;
    assert s == {x};
  }

  function Only<T(==)>(s: set<T>): (x: T)
    requires |s| == 1
    ensures s == {x}
  {
    OnlyMember(s);
    var x :| x in s;
    x
  }

  function SeriesVerdict(c: Evidence): Option<Verdict> {
    if |Leagues(c.found)| > 1 then Some(Verdict(L4_SERIES_METADATA, None, Some(EVIDENCE_CONFLICT)))
    else if |Leagues(c.found)| == 1 then Some(Verdict(L4_SERIES_METADATA, Some(Only(Leagues(c.found))), None))
    else if Any(c.found, RIVAL_SPORT) then Some(Verdict(L4_SERIES_METADATA, Some(OTHER), None))
    else if Any(c.found, FAMILY) then Some(Verdict(L4_SERIES_METADATA, None, Some(AMBIGUOUS_FAMILY)))
    else if Any(c.found, CATEGORY) then Some(Verdict(L4_SERIES_METADATA, Some(OTHER), None))
    else None
  }

  function RegistryVerdict(c: Evidence): Option<Verdict> {
    if c.registry.None? then None else Some(Verdict(L5_SERIES_REGISTRY, Some(c.registry.value.sport), None))
  }

  // ------------------------------------------------------------- one market

  function Unresolved(reason: Reason, unverified: bool, rescuableBy: Option<Level>): Classification {
    Classification(UNRESOLVED, None, Some(reason), unverified, false, rescuableBy)
  }

  predicate Terminal(v: Option<Verdict>) {
    v.Some? && v.value.reason.Some?
  }

  predicate Decisive(v: Option<Verdict>) {
    v.Some? && v.value.sport.Some?
  }

  function AsList(v: Option<Verdict>): seq<Verdict> {
    if v.Some? then [v.value] else []
  }

  function DecisiveOf(vs: seq<Verdict>): (decisive: seq<Verdict>)
    ensures forall i | 0 <= i < |decisive| :: decisive[i].sport.Some?
  {
    if vs == [] then []
    else (if vs[0].sport.Some? then [vs[0]] else []) + DecisiveOf(vs[1..])
  }

  /** The winner against every weaker decisive verdict: `None` when real metadata disagrees,
      otherwise whether something weaker was overruled. */
  function Weigh(winner: Verdict, others: seq<Verdict>): Option<bool> {
    if others == [] then Some(false)
    else
      var (rest, other) := (Weigh(winner, others[..|others| - 1]), others[|others| - 1]);
      if rest.None? then None
      else if other.sport == winner.sport then rest
      else if other.level == L5_SERIES_REGISTRY then Some(true)
      else if winner.level in COMPETITION_LEVELS || other.level in COMPETITION_LEVELS then None
      else Some(true)
  }

  method WeighAll(winner: Verdict, others: seq<Verdict>) returns (res: Option<bool>)
    ensures res == Weigh(winner, others)
  {
    var conflict := false;
    for i := 0 to |others|
      invariant Weigh(winner, others[..i]) == Some(conflict)
    {
      assert others[..i + 1][..i] == others[..i];
      if others[i].sport == winner.sport {
        continue;
      }
      if others[i].level == L5_SERIES_REGISTRY {
        conflict := true;
        continue;
      }
      if winner.level in COMPETITION_LEVELS || others[i].level in COMPETITION_LEVELS {
        WeighRefused(winner, others, i + 1);
        return None;
      }
      conflict := true;
    }
    assert others[..|others|] == others;
    res := Some(conflict);
  }

  lemma {:induction false} WeighRefused(winner: Verdict, others: seq<Verdict>, k: nat)
    requires k <= |others| && Weigh(winner, others[..k]).None?
    ensures Weigh(winner, others).None?
  {
    if k == |others| {
      assert others[..k] == others;
    } else {
      assert others[..|others| - 1][..k] == others[..k];
      WeighRefused(winner, others[..|others| - 1], k);
    }
  }

  function Gathered(src: Sources, c: Evidence): seq<Verdict> {
    var competition := CompetitionVerdict(src, c);
    AsList(competition) + (if competition.None? then AsList(MilestoneVerdict(src, c)) else [])
    + AsList(SeriesVerdict(c)) + AsList(RegistryVerdict(c))
  }

  function FirstReason(vs: seq<Verdict>): Option<Reason> {
    if vs == [] then None else if vs[0].reason.Some? then vs[0].reason else FirstReason(vs[1..])
  }

  function ClassifyMarket(src: Sources, c: Evidence): Classification {
    if c.lookupFailed then Unresolved(METADATA_LOOKUP_FAILED, false, None)
    else if c.malformed then Unresolved(MALFORMED_EVENT_METADATA, false, None)
    else if !c.anyMetadata then Unresolved(NO_METADATA, false, None)
    else
      var competition := CompetitionVerdict(src, c);
      var milestone := if competition.None? then MilestoneVerdict(src, c) else None;
      var unverified := c.registry.Some? && !c.registry.value.verified;
      var rescuable := if Decisive(SeriesVerdict(c)) then Some(L4_SERIES_METADATA)
                       else if c.registry.Some? then Some(L5_SERIES_REGISTRY) else None;
      if Terminal(competition) then Unresolved(competition.value.reason.value, unverified, rescuable)
      else if Terminal(milestone) then Unresolved(milestone.value.reason.value, unverified, rescuable)
      else
        var decisive := DecisiveOf(Gathered(src, c));
        if decisive == [] then
          Unresolved(if FirstReason(Gathered(src, c)).Some? then FirstReason(Gathered(src, c)).value
                     else if c.hasEventMetadata && c.competition.None? then COMPETITION_ABSENT else INSUFFICIENT,
                     unverified, None)
        else
          match Weigh(decisive[0], decisive[1..])
          case None => Unresolved(EVIDENCE_CONFLICT, unverified, None)
          case Some(conflict) =>
            Classification(decisive[0].sport.value, Some(decisive[0].level), None, unverified, conflict, None)
  }

  // ------------------------------------------------------------- it fails closed

  /** The strongest verdict from the exchange about the event itself: its competition, or failing
      one, its milestone. */
  function EventVerdict(src: Sources, c: Evidence): Option<Verdict> {
    if CompetitionVerdict(src, c).Some? then CompetitionVerdict(src, c) else MilestoneVerdict(src, c)
  }

  lemma GatheredShape(src: Sources, c: Evidence)
    ensures Gathered(src, c) == AsList(EventVerdict(src, c)) + AsList(SeriesVerdict(c)) + AsList(RegistryVerdict(c))
    ensures DecisiveOf(Gathered(src, c)) ==
            (if Decisive(EventVerdict(src, c)) then [EventVerdict(src, c).value] else []) +
            (if Decisive(SeriesVerdict(c)) then [SeriesVerdict(c).value] else []) +
            (if c.registry.Some? then [RegistryVerdict(c).value] else [])
  {
    EventGathered(src, c);
    DecisiveShape(EventVerdict(src, c), SeriesVerdict(c), RegistryVerdict(c));
  }

  lemma EventGathered(src: Sources, c: Evidence)
    ensures Gathered(src, c) == AsList(EventVerdict(src, c)) + AsList(SeriesVerdict(c)) + AsList(RegistryVerdict(c))
  {
    assert AsList(None) + (AsList(MilestoneVerdict(src, c))) == AsList(MilestoneVerdict(src, c));
    assert AsList(CompetitionVerdict(src, c)) + [] == AsList(CompetitionVerdict(src, c));
  }

  lemma DecisiveShape(e: Option<Verdict>, s: Option<Verdict>, r: Option<Verdict>)
    ensures DecisiveOf(AsList(e) + AsList(s) + AsList(r)) ==
            (if Decisive(e) then [e.value] else []) + (if Decisive(s) then [s.value] else []) + (if Decisive(r) then [r.value] else [])
  {
    DecisiveConcat(AsList(e) + AsList(s), AsList(r));
    DecisiveConcat(AsList(e), AsList(s));
    DecisiveOne(e);
    DecisiveOne(s);
    DecisiveOne(r);
  }

  lemma DecisiveOne(v: Option<Verdict>)
    ensures DecisiveOf(AsList(v)) == if Decisive(v) then [v.value] else []
  {
    if v.Some? {
      assert AsList(v)[1..] == [];
    }
  }

  lemma {:induction false} DecisiveConcat(a: seq<Verdict>, b: seq<Verdict>)
    ensures DecisiveOf(a + b) == DecisiveOf(a) + DecisiveOf(b)
  {
    if a == [] {
      assert a + b == b;
    } else {
      assert (a + b)[1..] == a[1..] + b;
      DecisiveConcat(a[1..], b);
    }
  }

  /** The whole answer, exactly: which sport, and when it refuses. */
  function Answer(src: Sources, c: Evidence): Sport {
    var event, series := EventVerdict(src, c), SeriesVerdict(c);
    if c.lookupFailed || c.malformed || !c.anyMetadata || Terminal(event) then UNRESOLVED
    else if Decisive(event) then
      if Decisive(series) && series.value.sport != event.value.sport then UNRESOLVED else event.value.sport.value
    else if Decisive(series) then series.value.sport.value
    else if c.registry.Some? then c.registry.value.sport
    else UNRESOLVED
  }

  lemma WeighOne(winner: Verdict, other: Verdict)
    ensures Weigh(winner, [other]) ==
      if other.sport == winner.sport then Some(false)
      else if other.level == L5_SERIES_REGISTRY then Some(true)
      else if winner.level in COMPETITION_LEVELS || other.level in COMPETITION_LEVELS then None
      else Some(true)
  {
    assert [other][..0] == [];
  }

  lemma WeighRegistry(winner: Verdict, others: seq<Verdict>, registry: Verdict)
    requires registry.level == L5_SERIES_REGISTRY
    ensures Weigh(winner, others + [registry]).None? <==> Weigh(winner, others).None?
  {
    assert (others + [registry])[..|others|] == others;
  }

  /** Every verdict about the event names a sport or refuses, at one of the three event levels. */
  lemma EventSpeaks(src: Sources, c: Evidence)
    ensures EventVerdict(src, c).Some? ==>
      && (Decisive(EventVerdict(src, c)) <==> !Terminal(EventVerdict(src, c)))
      && EventVerdict(src, c).value.level in COMPETITION_LEVELS
    ensures Terminal(CompetitionVerdict(src, c)) || (CompetitionVerdict(src, c).None? && Terminal(MilestoneVerdict(src, c)))
            <==> Terminal(EventVerdict(src, c))
  {
  }

  /** Whether the strongest evidence stands, and on what. */
  lemma WinnerStands(src: Sources, c: Evidence)
    requires DecisiveOf(Gathered(src, c)) != []
    ensures var decisive := DecisiveOf(Gathered(src, c)); var event, series := EventVerdict(src, c), SeriesVerdict(c);
      && Some(decisive[0]) == (if Decisive(event) then event else if Decisive(series) then series else RegistryVerdict(c))
      && (Weigh(decisive[0], decisive[1..]).None? <==>
            Decisive(event) && Decisive(series) && series.value.sport != event.value.sport)
  {
    GatheredShape(src, c);
    EventSpeaks(src, c);
    var event, series, registry := EventVerdict(src, c), SeriesVerdict(c), RegistryVerdict(c);
    var decisive := DecisiveOf(Gathered(src, c));
    if Decisive(event) && Decisive(series) {
      WeighOne(event.value, series.value);
      if c.registry.Some? {
        assert decisive[1..] == [series.value] + [registry.value];
        WeighRegistry(event.value, [series.value], registry.value);
      } else {
        assert decisive[1..] == [series.value];
      }
    } else if |decisive| == 2 {
      assert decisive[1..] == [registry.value];
      WeighOne(decisive[0], registry.value);
    } else {
      assert decisive[1..] == [];
    }
  }

  /** The strongest decisive verdict, when nothing blocks it and nothing real contradicts it. */
  function Winner(src: Sources, c: Evidence): Option<Verdict> {
    var decisive := DecisiveOf(Gathered(src, c));
    if c.lookupFailed || c.malformed || !c.anyMetadata || Terminal(EventVerdict(src, c)) || decisive == [] then None
    else if Weigh(decisive[0], decisive[1..]).None? then None
    else Some(decisive[0])
  }

  lemma WinnerIsAnswered(src: Sources, c: Evidence)
    ensures ClassifyMarket(src, c).resolvedBy == (if Winner(src, c).Some? then Some(Winner(src, c).value.level) else None)
    ensures Winner(src, c).Some? ==> Winner(src, c).value.sport == Some(ClassifyMarket(src, c).sport)
    ensures Winner(src, c).None? ==> ClassifyMarket(src, c).sport == UNRESOLVED
  {
    EventSpeaks(src, c);
  }

  lemma SeriesLevel(c: Evidence)
    ensures SeriesVerdict(c).Some? ==> SeriesVerdict(c).value.level == L4_SERIES_METADATA
  {
  }

  /** The winner, in terms of the three sources. */
  lemma WinnerIs(src: Sources, c: Evidence)
    ensures var event, series := EventVerdict(src, c), SeriesVerdict(c);
      Winner(src, c) ==
      if c.lookupFailed || c.malformed || !c.anyMetadata || Terminal(event) then None
      else if Decisive(event) then (if Decisive(series) && series.value.sport != event.value.sport then None else event)
      else if Decisive(series) then series
      else RegistryVerdict(c)
  {
    GatheredShape(src, c);
    if DecisiveOf(Gathered(src, c)) != [] {
      WinnerStands(src, c);
    }
  }

  lemma AnswerIsExact(src: Sources, c: Evidence)
    ensures ClassifyMarket(src, c).sport == Answer(src, c)
  {
    WinnerIsAnswered(src, c);
    WinnerIs(src, c);
  }

  /** A routable answer is never given against the event's competition or milestone, nor against a
      decisive verdict of the series metadata. */
  lemma FailsClosed(src: Sources, c: Evidence)
    requires ClassifyMarket(src, c).sport in ROUTABLE_SPORTS
    ensures !c.lookupFailed && !c.malformed && c.anyMetadata
    ensures EventVerdict(src, c).Some? ==> EventVerdict(src, c).value.sport == Some(ClassifyMarket(src, c).sport)
    ensures Decisive(SeriesVerdict(c)) ==> SeriesVerdict(c).value.sport == Some(ClassifyMarket(src, c).sport)
    ensures EventVerdict(src, c).None? && !Decisive(SeriesVerdict(c)) ==>
              c.registry.Some? && c.registry.value.sport == ClassifyMarket(src, c).sport
  {
    AnswerIsExact(src, c);
  }

  /** Our own registry never changes the sport when anything else is decisive, and never rescues a
      refusal at the event's level. */
  lemma RegistryOnlyYields(src: Sources, c: Evidence)
    requires Decisive(EventVerdict(src, c)) || Terminal(EventVerdict(src, c)) || Decisive(SeriesVerdict(c))
    ensures ClassifyMarket(src, c).sport == ClassifyMarket(src, c.(registry := None)).sport
  {
    AnswerIsExact(src, c);
    AnswerIsExact(src, c.(registry := None));
    assert SeriesVerdict(c) == SeriesVerdict(c.(registry := None));
    assert EventVerdict(src, c) == EventVerdict(src, c.(registry := None));
  }

  /** A conflict or an ambiguous family in the series metadata is not terminal: exactly when the
      event says nothing and the series metadata decides nothing, the registry decides. */
  lemma RegistryDecidesIff(src: Sources, c: Evidence)
    ensures ClassifyMarket(src, c).resolvedBy == Some(L5_SERIES_REGISTRY) <==>
      && !c.lookupFailed && !c.malformed && c.anyMetadata
      && EventVerdict(src, c).None? && !Decisive(SeriesVerdict(c)) && c.registry.Some?
  {
    WinnerIsAnswered(src, c);
    WinnerIs(src, c);
    EventSpeaks(src, c);
    SeriesLevel(c);
  }

  /** So a market whose series names two leagues is still routed by the registry. */
  lemma ConflictingSeriesStillRouted(src: Sources, c: Evidence)
    requires !c.lookupFailed && !c.malformed && c.anyMetadata && EventVerdict(src, c).None?
    requires MLB in Leagues(c.found) && NFL in Leagues(c.found)
    requires c.registry == Some(RegistryEntry(NFL, true))
    ensures SeriesVerdict(c) == Some(Verdict(L4_SERIES_METADATA, None, Some(EVIDENCE_CONFLICT)))
    ensures ClassifyMarket(src, c).sport == NFL
  {
    assert {MLB, NFL} <= Leagues(c.found);
    SubsetSize({MLB, NFL}, Leagues(c.found));
    AnswerIsExact(src, c);
  }

  lemma {:induction false} SubsetSize(a: set<Sport>, b: set<Sport>)
    requires a <= b
    ensures |a| <= |b|
  {
    if a != {} {
      var x :| x in a;
      SubsetSize(a - {x}, b - {x});
    }
  }

  // ------------------------------------------------------------- the ambiguity gate

  lemma CountWithout(r: Rules, competition: string, direct: Sport, b: seq<string>, k: nat)
    requires k < |b|
    ensures CountAffirming(r, competition, direct, b) == CountAffirming(r, competition, direct, b[..k] + b[k + 1..]) +
            if RoleOf(r, competition, direct, b[k]) == AFFIRMING then 1 else 0
  {
    assert b == b[..k] + [b[k]] + b[k + 1..];
    CountConcat(r, competition, direct, b[..k], b[k + 1..]);
    CountConcat(r, competition, direct, b[..k] + [b[k]], b[k + 1..]);
    CountConcat(r, competition, direct, b[..k], [b[k]]);
    assert [b[k]][..0] == [];
  }

  lemma {:induction false} CountIsMultiplicity(r: Rules, competition: string, direct: Sport, a: seq<string>,
                                b: seq<string>)
    requires multiset(a) == multiset(b)
    ensures CountAffirming(r, competition, direct, a) == CountAffirming(r, competition, direct, b)
    decreases |a|
  {
    SameLength(a, b);
    if a != [] {
      var k := SameWithout(a, b);
      CountWithout(r, competition, direct, a, 0);
      CountWithout(r, competition, direct, b, k);
      assert a[..0] + a[1..] == a[1..];
      CountIsMultiplicity(r, competition, direct, a[1..], b[..k] + b[k + 1..]);
    }
  }

  lemma SameLength(a: seq<string>, b: seq<string>)
    requires multiset(a) == multiset(b)
    ensures |a| == |b|
  {
    assert |a| == |multiset(a)| == |multiset(b)| == |b|;
  }

  /** Taking the same name out of two lists of the same names leaves the same names. */
  lemma SameWithout(a: seq<string>, b: seq<string>) returns (k: nat)
    requires multiset(a) == multiset(b) && a != []
    ensures k < |b| && b[k] == a[0] && multiset(a[1..]) == multiset(b[..k] + b[k + 1..])
  {
    k := Sorting.Place(a, b);
    Sorting.WithoutFirst(a);
    Sorting.Without(b, k);
  }

  lemma {:induction false} CountConcat(r: Rules, competition: string, direct: Sport, a: seq<string>, b: seq<string>)
    ensures CountAffirming(r, competition, direct, a + b) ==
            CountAffirming(r, competition, direct, a) + CountAffirming(r, competition, direct, b)
  {
    if b == [] {
      assert a + b == a;
    } else {
      assert (a + b)[..|a + b| - 1] == a + b[..|b| - 1];
      CountConcat(r, competition, direct, a, b[..|b| - 1]);
    }
  }

  /** The gate ignores the order in which the catalogue lists the claimants. */
  lemma ClaimantOrderIrrelevant(r: Rules, competition: string, direct: Option<Sport>, a: seq<string>, b: seq<string>)
    requires multiset(a) == multiset(b)
    ensures Affirms(r, competition, direct, a) == Affirms(r, competition, direct, b)
  {
    if direct.Some? {
      CountIsMultiplicity(r, competition, direct.value, a, b);
      forall i | 0 <= i < |a| ensures a[i] in b {
        assert a[i] in multiset(a) && a[i] in multiset(b);
      }
      forall i | 0 <= i < |b| ensures b[i] in a {
        assert b[i] in multiset(b) && b[i] in multiset(a);
      }
    }
  }

  // ------------------------------------------------------------- the answer, from the evidence itself

  /** The catalogue backs this answer for an ambiguous name: exactly one claimant's members hold it,
      every claimant is known, and whatever else any other could hold is ruled out by the name. */
  ghost predicate Backs(r: Rules, name: string, direct: Sport, claimants: seq<string>) {
    && (forall j | 0 <= j < |claimants| :: r.members(claimants[j]).Some?)
    && exists i :: Claims(r, direct, claimants, i)
                   && forall j | 0 <= j < |claimants| && j != i ::
                        direct !in r.members(claimants[j]).value && forall m | m in r.members(claimants[j]).value :: r.excludes(m, name)
  }

  ghost predicate Claims(r: Rules, direct: Sport, claimants: seq<string>, i: int) {
    0 <= i < |claimants| && r.members(claimants[i]).Some? && direct in r.members(claimants[i]).value
  }

  ghost predicate OnlyClaims(r: Rules, direct: Sport, claimants: seq<string>, i: int) {
    Claims(r, direct, claimants, i) && forall j :: Claims(r, direct, claimants, j) ==> j == i
  }

  lemma {:induction false} CountIs(r: Rules, name: string, direct: Sport, claimants: seq<string>)
    ensures CountAffirming(r, name, direct, claimants) == 0 <==> forall i :: !Claims(r, direct, claimants, i)
    ensures CountAffirming(r, name, direct, claimants) == 1 <==> exists i :: OnlyClaims(r, direct, claimants, i)
  {
    if claimants != [] {
      var n := |claimants| - 1;
      CountIs(r, name, direct, claimants[..n]);
      ClaimsNext(r, name, direct, claimants);
      if Claims(r, direct, claimants, n) {
        assert OnlyClaims(r, direct, claimants, n) <==> forall i :: !Claims(r, direct, claimants[..n], i);
        assert forall i | i != n :: !OnlyClaims(r, direct, claimants, i);
      } else {
        assert forall i :: OnlyClaims(r, direct, claimants, i) <==> OnlyClaims(r, direct, claimants[..n], i);
      }
    }
  }

  lemma ClaimsNext(r: Rules, name: string, direct: Sport, claimants: seq<string>)
    requires claimants != []
    ensures var n := |claimants| - 1;
      && (forall i | i != n :: Claims(r, direct, claimants, i) <==> Claims(r, direct, claimants[..n], i))
      && !Claims(r, direct, claimants[..n], n)
      && (RoleOf(r, name, direct, claimants[n]) == AFFIRMING <==> Claims(r, direct, claimants, n))
  {
    var n := |claimants| - 1;
    assert forall i | 0 <= i < n :: claimants[..n][i] == claimants[i];
  }

  lemma AffirmsIff(r: Rules, name: string, direct: Option<Sport>, claimants: seq<string>)
    ensures Affirms(r, name, direct, claimants) <==> direct.Some? && Backs(r, name, direct.value, claimants)
  {
    if direct.Some? {
      CountIs(r, name, direct.value, claimants);
      forall j | 0 <= j < |claimants|
        ensures RoleOf(r, name, direct.value, claimants[j]) in {IRRELEVANT, AFFIRMING} <==>
                r.members(claimants[j]).Some? &&
                (direct.value in r.members(claimants[j]).value || forall m | m in r.members(claimants[j]).value :: r.excludes(m, name))
      {
      }
      if Affirms(r, name, direct, claimants) {
        AffirmedIsBacked(r, name, direct.value, claimants);
      } else if Backs(r, name, direct.value, claimants) {
        BackedIsAffirmed(r, name, direct.value, claimants);
      }
    }
  }

  lemma AffirmedIsBacked(r: Rules, name: string, direct: Sport, claimants: seq<string>)
    requires forall j | 0 <= j < |claimants| ::
      r.members(claimants[j]).Some? &&
      (direct in r.members(claimants[j]).value || forall m | m in r.members(claimants[j]).value :: r.excludes(m, name))
    requires exists i :: OnlyClaims(r, direct, claimants, i)
    ensures Backs(r, name, direct, claimants)
  {
    var i :| OnlyClaims(r, direct, claimants, i);
    forall j | 0 <= j < |claimants| && j != i
      ensures direct !in r.members(claimants[j]).value && forall m | m in r.members(claimants[j]).value :: r.excludes(m, name)
    {
      assert !Claims(r, direct, claimants, j);
    }
  }

  lemma BackedIsAffirmed(r: Rules, name: string, direct: Sport, claimants: seq<string>)
    requires Backs(r, name, direct, claimants)
    ensures Affirms(r, name, Some(direct), claimants)
  {
    CountIs(r, name, direct, claimants);
    var i :| Claims(r, direct, claimants, i)
             && forall j | 0 <= j < |claimants| && j != i ::
                  direct !in r.members(claimants[j]).value && forall m | m in r.members(claimants[j]).value :: r.excludes(m, name);
    assert OnlyClaims(r, direct, claimants, i);
    forall j | 0 <= j < |claimants| ensures RoleOf(r, name, direct, claimants[j]) in {IRRELEVANT, AFFIRMING} {
      if j == i { assert direct in r.members(claimants[i]).value; }
    }
  }

  /** Several sports claim the event's competition, and the catalogue does not back our reading. */
  ghost predicate Contested(src: Sources, c: Evidence) {
    && c.competition.Some? && src.taxonomy.Some? && src.taxonomy.value.isAmbiguous(c.competition.value)
    && !(src.rules.direct(c.competition.value).Some? &&
         Backs(src.rules, c.competition.value, src.rules.direct(c.competition.value).value,
               src.taxonomy.value.claimants(c.competition.value)))
  }

  /** The event's competition is a name we know. */
  ghost predicate NamesDirectly(src: Sources, c: Evidence, s: Sport) {
    c.competition.Some? && !Contested(src, c) && src.rules.direct(c.competition.value) == Some(s)
  }

  /** It is not, but the catalogue files it under a sport that is. */
  ghost predicate NamesByCatalogue(src: Sources, c: Evidence, s: Sport) {
    && c.competition.Some? && !Contested(src, c) && src.rules.direct(c.competition.value) == None && src.taxonomy.Some?
    && exists text :: src.taxonomy.value.sportFor(c.competition.value) == Some(text) && text != ""
                      && src.rules.fromTaxonomySport(text) == Some(s)
  }

  /** There is no competition, but a milestone files the event under one we know. */
  ghost predicate NamesByMilestone(src: Sources, c: Evidence, s: Sport) {
    && c.competition.None? && src.milestones.Some?
    && exists event, text :: c.eventTicker == Some(event) && event != "" && !src.milestones.value.isConflicted(event)
                             && src.milestones.value.competitionFor(event) == Some(text) && text != ""
                             && src.rules.direct(text) == Some(s)
  }

  /** Milestones file the event under several competitions. */
  ghost predicate MilestonesClash(src: Sources, c: Evidence) {
    && c.competition.None? && src.milestones.Some? && c.eventTicker.Some? && c.eventTicker.value != ""
    && src.milestones.value.isConflicted(c.eventTicker.value)
  }

  ghost predicate EventNames(src: Sources, c: Evidence, s: Sport) {
    NamesDirectly(src, c, s) || NamesByCatalogue(src, c, s) || NamesByMilestone(src, c, s)
  }

  /** The event is one we refuse to place: contested, unknown, or filed twice. */
  ghost predicate EventRefuses(src: Sources, c: Evidence) {
    || (c.competition.Some? && forall s: Sport :: !NamesDirectly(src, c, s) && !NamesByCatalogue(src, c, s))
    || MilestonesClash(src, c)
  }

  ghost function EventLevel(src: Sources, c: Evidence, s: Sport): Level {
    if NamesByMilestone(src, c, s) then L3_MILESTONE
    else if NamesByCatalogue(src, c, s) then L2_SPORT_TAXONOMY
    else L1_EVENT_COMPETITION
  }

  ghost function EventRefusal(src: Sources, c: Evidence): Reason {
    if c.competition.None? then MILESTONE_CONFLICT
    else if Contested(src, c) then COMPETITION_AMBIGUOUS
    else COMPETITION_UNKNOWN
  }

  /** What the event says, exactly. */
  lemma EventIs(src: Sources, c: Evidence)
    ensures forall s: Sport :: Decisive(EventVerdict(src, c)) && EventVerdict(src, c).value.sport == Some(s) <==> EventNames(src, c, s)
    ensures forall s: Sport :: EventNames(src, c, s) ==> EventVerdict(src, c).value.level == EventLevel(src, c, s)
    ensures Terminal(EventVerdict(src, c)) <==> EventRefuses(src, c)
    ensures Terminal(EventVerdict(src, c)) ==> EventVerdict(src, c).value.reason == Some(EventRefusal(src, c))
  {
    if c.competition.Some? {
      CompetitionIs(src, c);
    } else {
      MilestoneIs(src, c);
    }
  }

  lemma CompetitionIs(src: Sources, c: Evidence)
    requires c.competition.Some?
    ensures CompetitionVerdict(src, c).Some? && EventVerdict(src, c) == CompetitionVerdict(src, c)
    ensures var v := CompetitionVerdict(src, c).value;
      && (forall s: Sport :: v.sport == Some(s) <==> NamesDirectly(src, c, s) || NamesByCatalogue(src, c, s))
      && (v.sport.Some? <==> v.reason.None?)
      && (forall s: Sport :: NamesDirectly(src, c, s) ==> v.level == L1_EVENT_COMPETITION)
      && (forall s: Sport :: NamesByCatalogue(src, c, s) ==> v.level == L2_SPORT_TAXONOMY)
      && (v.reason.Some? ==> v.reason == Some(if Contested(src, c) then COMPETITION_AMBIGUOUS else COMPETITION_UNKNOWN))
  {
    var name := c.competition.value;
    if src.taxonomy.Some? {
      AffirmsIff(src.rules, name, src.rules.direct(name), src.taxonomy.value.claimants(name));
    }
  }

  lemma MilestoneIs(src: Sources, c: Evidence)
    requires c.competition.None?
    ensures EventVerdict(src, c) == MilestoneVerdict(src, c)
    ensures var v := MilestoneVerdict(src, c);
      && (forall s: Sport :: Decisive(v) && v.value.sport == Some(s) <==> NamesByMilestone(src, c, s))
      && (v.Some? ==> v.value.level == L3_MILESTONE && (v.value.sport.Some? <==> v.value.reason.None?))
      && (Terminal(v) <==> MilestonesClash(src, c))
      && (Terminal(v) ==> v.value.reason == Some(MILESTONE_CONFLICT))
  {
  }

  /** The series metadata names this league, and no other. */
  ghost predicate SeriesNamesLeague(c: Evidence, s: Sport) {
    && s in {MLB, NFL, CFB, NHL, NBA, SOCCER, TENNIS}
    && (exists i :: 0 <= i < |c.found| && c.found[i].sport == s)
    && (forall i | 0 <= i < |c.found| && c.found[i].sport in {MLB, NFL, CFB, NHL, NBA, SOCCER, TENNIS} :: c.found[i].sport == s)
  }

  ghost predicate NoLeague(c: Evidence) {
    forall i | 0 <= i < |c.found| :: c.found[i].sport in {OTHER, UNRESOLVED}
  }

  ghost predicate SomeFound(c: Evidence, scope: Scope) {
    exists i :: 0 <= i < |c.found| && c.found[i].scope == scope
  }

  /** It names no league, but a sport that is none of ours; or, unless the family is ambiguous, a
      category that is no sport. */
  ghost predicate SeriesNamesOther(c: Evidence) {
    NoLeague(c) && (SomeFound(c, RIVAL_SPORT) || (SomeFound(c, CATEGORY) && !SomeFound(c, FAMILY)))
  }

  ghost predicate SeriesNames(c: Evidence, s: Sport) {
    SeriesNamesLeague(c, s) || (s == OTHER && SeriesNamesOther(c))
  }

  /** What the series metadata says, exactly. */
  lemma SeriesIs(c: Evidence)
    ensures forall s: Sport :: Decisive(SeriesVerdict(c)) && SeriesVerdict(c).value.sport == Some(s) <==> SeriesNames(c, s)
    ensures Terminal(SeriesVerdict(c)) && SeriesVerdict(c).value.reason == Some(EVIDENCE_CONFLICT) <==>
            !NoLeague(c) && forall s: Sport :: !SeriesNamesLeague(c, s)
    ensures Terminal(SeriesVerdict(c)) && SeriesVerdict(c).value.reason == Some(AMBIGUOUS_FAMILY) <==>
            NoLeague(c) && SomeFound(c, FAMILY) && !SomeFound(c, RIVAL_SPORT)
    ensures SeriesVerdict(c).Some? ==>
      && SeriesVerdict(c).value.level == L4_SERIES_METADATA
      && (SeriesVerdict(c).value.sport.Some? <==> SeriesVerdict(c).value.reason.None?)
      && (SeriesVerdict(c).value.reason.Some? ==> SeriesVerdict(c).value.reason.value in {EVIDENCE_CONFLICT, AMBIGUOUS_FAMILY})
  {
    LeaguesAre(c);
  }

  lemma LeaguesAre(c: Evidence)
    ensures |Leagues(c.found)| == 0 <==> NoLeague(c)
    ensures forall s: Sport :: Leagues(c.found) == {s} <==> SeriesNamesLeague(c, s)
    ensures |Leagues(c.found)| > 1 <==> !NoLeague(c) && forall s: Sport :: !SeriesNamesLeague(c, s)
  {
    var leagues := Leagues(c.found);
    forall i | 0 <= i < |c.found| ensures c.found[i].sport in leagues <==> c.found[i].sport !in {OTHER, UNRESOLVED} {
      SevenRoutable(c.found[i].sport);
    }
    if |leagues| == 0 {
      assert leagues == {};
    } else if |leagues| == 1 {
      var s := Only(leagues);
      assert SeriesNamesLeague(c, s);
    }
    forall s: Sport | SeriesNamesLeague(c, s) ensures leagues == {s} {
    }
  }

  lemma SevenRoutable(s: Sport)
    ensures s in ROUTABLE_SPORTS <==> s in {MLB, NFL, CFB, NHL, NBA, SOCCER, TENNIS}
    ensures s in ROUTABLE_SPORTS <==> s !in {OTHER, UNRESOLVED}
  {
    match s
    case MLB =>
    case NFL =>
    case CFB =>
    case NHL =>
    case NBA =>
    case SOCCER =>
    case TENNIS =>
    case OTHER =>
    case UNRESOLVED =>
  }

  /** What was read about the market can be used at all. */
  ghost predicate Readable(c: Evidence) {
    !c.lookupFailed && !c.malformed && c.anyMetadata
  }

  /** A market's own sport, from what was read about it. An event that names one needs the series
      metadata not to name another; an event that says nothing leaves it to the series metadata, and
      that to the registry. Nothing is answered when the metadata cannot be read, or the event is
      one we refuse to place. */
  ghost predicate Placed(src: Sources, c: Evidence, s: Sport) {
    && Readable(c) && !EventRefuses(src, c)
    && (if exists e: Sport :: EventNames(src, c, e) then EventNames(src, c, s) && forall o: Sport :: SeriesNames(c, o) ==> o == s
        else if exists o: Sport :: SeriesNames(c, o) then SeriesNames(c, s)
        else c.registry.Some? && c.registry.value.sport == s)
  }

  ghost function PlacedBy(src: Sources, c: Evidence, s: Sport): Level {
    if EventNames(src, c, s) then EventLevel(src, c, s)
    else if SeriesNames(c, s) then L4_SERIES_METADATA
    else L5_SERIES_REGISTRY
  }

  /** Why a market that cannot be placed is not. */
  ghost function Refusal(src: Sources, c: Evidence): Reason {
    if c.lookupFailed then METADATA_LOOKUP_FAILED
    else if c.malformed then MALFORMED_EVENT_METADATA
    else if !c.anyMetadata then NO_METADATA
    else if EventRefuses(src, c) then EventRefusal(src, c)
    else if (exists e: Sport :: EventNames(src, c, e)) || !NoLeague(c) then EVIDENCE_CONFLICT
    else if SomeFound(c, FAMILY) then AMBIGUOUS_FAMILY
    else if c.hasEventMetadata then COMPETITION_ABSENT
    else INSUFFICIENT
  }

  lemma WinnerIsPlaced(src: Sources, c: Evidence)
    ensures forall s: Sport :: Placed(src, c, s) <==> Winner(src, c).Some? && Winner(src, c).value.sport == Some(s)
    ensures Winner(src, c).Some? ==> Winner(src, c).value.sport.Some? && Placed(src, c, Winner(src, c).value.sport.value)
    ensures forall s: Sport :: Placed(src, c, s) ==> Winner(src, c).value.level == PlacedBy(src, c, s)
  {
    WinnerIs(src, c);
    EventIs(src, c);
    SeriesIs(c);
    EventSpeaks(src, c);
    if Decisive(EventVerdict(src, c)) { assert EventNames(src, c, EventVerdict(src, c).value.sport.value); }
    if Decisive(SeriesVerdict(c)) { assert SeriesNames(c, SeriesVerdict(c).value.sport.value); }
  }

  /** The whole classification of one market, in those terms. */
  lemma ClassifiedIff(src: Sources, c: Evidence, s: Sport)
    ensures Placed(src, c, s) ==> ClassifyMarket(src, c).sport == s && ClassifyMarket(src, c).reason == None
    ensures Placed(src, c, s) ==> ClassifyMarket(src, c).resolvedBy == Some(PlacedBy(src, c, s))
    ensures s != UNRESOLVED && ClassifyMarket(src, c).sport == s ==> Placed(src, c, s)
    ensures ClassifyMarket(src, c).resolvedBy.None? <==> forall o: Sport :: !Placed(src, c, o)
  {
    WinnerIsAnswered(src, c);
    WinnerIsPlaced(src, c);
  }

  /** Why it was not placed, exactly. */
  lemma RefusedIs(src: Sources, c: Evidence)
    requires forall s: Sport :: !Placed(src, c, s)
    ensures ClassifyMarket(src, c).sport == UNRESOLVED && ClassifyMarket(src, c).reason == Some(Refusal(src, c))
  {
    WinnerIsPlaced(src, c);
    WinnerIsAnswered(src, c);
    EventIs(src, c);
    EventSpeaks(src, c);
    if Readable(c) && !EventRefuses(src, c) {
      UnplacedReason(src, c);
      SeriesIs(c);
      if Decisive(EventVerdict(src, c)) {
        assert EventNames(src, c, EventVerdict(src, c).value.sport.value);
      } else {
        assert forall e: Sport :: !EventNames(src, c, e);
        UnnamedSeries(c);
      }
    }
  }

  lemma UnnamedSeries(c: Evidence)
    requires !Decisive(SeriesVerdict(c))
    ensures Terminal(SeriesVerdict(c)) <==> !NoLeague(c) || SomeFound(c, FAMILY)
    ensures Terminal(SeriesVerdict(c)) ==>
              SeriesVerdict(c).value.reason == Some(if NoLeague(c) then AMBIGUOUS_FAMILY else EVIDENCE_CONFLICT)
  {
    SeriesIs(c);
    LeaguesAre(c);
  }

  lemma UnplacedReason(src: Sources, c: Evidence)
    requires Readable(c) && !Terminal(EventVerdict(src, c)) && Winner(src, c).None?
    ensures !Decisive(EventVerdict(src, c)) ==> !Decisive(SeriesVerdict(c)) && c.competition.None?
    ensures ClassifyMarket(src, c).reason == Some(
              if Decisive(EventVerdict(src, c)) then EVIDENCE_CONFLICT
              else if Terminal(SeriesVerdict(c)) then SeriesVerdict(c).value.reason.value
              else if c.hasEventMetadata then COMPETITION_ABSENT else INSUFFICIENT)
  {
    WinnerIs(src, c);
    GatheredShape(src, c);
    EventSpeaks(src, c);
    if Decisive(EventVerdict(src, c)) {
      WinnerStands(src, c);
    } else {
      assert EventVerdict(src, c).None?;
      assert Gathered(src, c) == AsList(SeriesVerdict(c));
      if SeriesVerdict(c).Some? { assert AsList(SeriesVerdict(c))[1..] == []; }
    }
  }

  /** The marks beside the answer: an entry of the registry nobody verified, a registry that says
      otherwise, and what would have answered for an event that is refused. */
  lemma MarksAre(src: Sources, c: Evidence)
    ensures ClassifyMarket(src, c).unverified <==> Readable(c) && c.registry.Some? && !c.registry.value.verified
    ensures ClassifyMarket(src, c).conflict <==> exists s: Sport :: Placed(src, c, s) && RegistryDiffers(c, s)
    ensures ClassifyMarket(src, c).rescuableBy ==
            if !Readable(c) || !EventRefuses(src, c) then None
            else if exists s: Sport :: SeriesNames(c, s) then Some(L4_SERIES_METADATA)
            else if c.registry.Some? then Some(L5_SERIES_REGISTRY)
            else None
  {
    WinnerIsPlaced(src, c);
    ConflictIs(src, c);
    EventIs(src, c);
    SeriesIs(c);
    EventSpeaks(src, c);
    if Winner(src, c).Some? { assert Placed(src, c, Winner(src, c).value.sport.value); }
    if Decisive(SeriesVerdict(c)) { assert SeriesNames(c, SeriesVerdict(c).value.sport.value); }
  }

  ghost predicate RegistryDiffers(c: Evidence, s: Sport) {
    c.registry.Some? && c.registry.value.sport != s
  }

  lemma ConflictIs(src: Sources, c: Evidence)
    ensures ClassifyMarket(src, c).conflict <==>
            Winner(src, c).Some? && Winner(src, c).value.sport.Some? && RegistryDiffers(c, Winner(src, c).value.sport.value)
  {
    EventSpeaks(src, c);
    WinnerIs(src, c);
    GatheredShape(src, c);
    if Winner(src, c).Some? {
      var decisive := DecisiveOf(Gathered(src, c));
      OverruledIs(decisive[0], decisive[1..], SeriesVerdict(c), RegistryVerdict(c));
    }
  }

  lemma OverruledIs(winner: Verdict, others: seq<Verdict>, series: Option<Verdict>, registry: Option<Verdict>)
    requires Weigh(winner, others).Some?
    requires registry.Some? ==> registry.value.level == L5_SERIES_REGISTRY
    requires || others == []
             || (registry.Some? && others == [registry.value])
             || (series.Some? && others == [series.value] && series.value.sport == winner.sport)
             || (series.Some? && registry.Some? && others == [series.value, registry.value] && series.value.sport == winner.sport)
    ensures Weigh(winner, others).value <==> others != [] && others[|others| - 1].sport != winner.sport
  {
    if |others| == 1 {
      WeighOne(winner, others[0]);
    } else if |others| == 2 {
      assert others[..1] == [series.value];
      WeighOne(winner, series.value);
    }
  }

  /** An ambiguous competition is routed only on our direct reading of its name, backed by the
      catalogue. */
  lemma AmbiguousIsBacked(src: Sources, c: Evidence)
    requires ClassifyMarket(src, c).sport in ROUTABLE_SPORTS && c.competition.Some?
    requires src.taxonomy.Some? && src.taxonomy.value.isAmbiguous(c.competition.value)
    ensures src.rules.direct(c.competition.value) == Some(ClassifyMarket(src, c).sport)
    ensures Backs(src.rules, c.competition.value, ClassifyMarket(src, c).sport, src.taxonomy.value.claimants(c.competition.value))
  {
    ClassifiedIff(src, c, ClassifyMarket(src, c).sport);
  }

  // ------------------------------------------------------------- combos

  predicate IsCombo(c: Context) {
    c.legs != [] || c.inCollection
  }

  function Refuse(b: Classification, reason: Reason): Classification {
    b.(sport := UNRESOLVED, resolvedBy := None, reason := Some(reason))
  }

  /** What one leg is: a routable sport, or nothing the combo can use. */
  function LegSport(src: Sources, leg: Context): Option<Sport> {
    if IsCombo(leg) || ClassifyMarket(src, leg.evidence).sport !in ROUTABLE_SPORTS then None
    else Some(ClassifyMarket(src, leg.evidence).sport)
  }

  predicate AllStated(legs: seq<Option<string>>) {
    forall i | 0 <= i < |legs| :: legs[i].Some?
  }

  /** What each leg answers. */
  function Answers(src: Sources, resolve: string -> Context, legs: seq<Option<string>>): seq<Option<Sport>>
    requires AllStated(legs)
  {
    seq(|legs|, i requires 0 <= i < |legs| => LegSport(src, resolve(legs[i].value)))
  }

  /** The combo rule, as a function of what the legs answer. */
  function Combine(b: Classification, answers: seq<Option<Sport>>): Classification {
    var sports := set a | a in answers;
    if None in sports then Refuse(b, COMBO_LEG_UNRESOLVED)
    else if |sports| != 1 then Refuse(b, COMBO_LEGS_SPAN_SPORTS)
    else
      var s := Only(sports);
      if s.None? then b
      else if b.sport == UNRESOLVED then b.(sport := s.value, resolvedBy := Some(COMBO_LEGS), reason := None)
      else if b.sport == s.value then b
      else Refuse(b, EVIDENCE_CONFLICT)
  }

  /** Legs can answer for a combo whose own evidence came up empty: it found nothing, rather than something
      it refuses. */
  predicate Completable(b: Classification) {
    b.sport == UNRESOLVED ==> b.reason.Some? && b.reason.value in COMBO_COMPLETABLE
  }

  function ClassifyWithLegs(src: Sources, resolve: string -> Context, c: Context): Classification {
    var b := ClassifyMarket(src, c.evidence);
    if !IsCombo(c) || !Completable(b) then b
    else if c.legs == [] || !AllStated(c.legs) then
      if b.sport != UNRESOLVED then b else Refuse(b, COMBO_LEGS_UNAVAILABLE)
    else Combine(b, Answers(src, resolve, c.legs))
  }

  /** The combo rule's own loop over the legs. */
  method ClassifyCombo(src: Sources, resolve: string -> Context, c: Context) returns (res: Classification)
    ensures res == ClassifyWithLegs(src, resolve, c)
  {
    var b := ClassifyMarket(src, c.evidence);
    if !IsCombo(c) {
      return b;
    }
    if !Completable(b) {
      return b;
    }
    if c.legs == [] || !AllStated(c.legs) {
      return if b.sport != UNRESOLVED then b else Refuse(b, COMBO_LEGS_UNAVAILABLE);
    }
    var sports := LegSportsLoop(src, resolve, c.legs);
    res := CombineSports(b, sports, Answers(src, resolve, c.legs));
  }

  /** The rule, once the loop has the legs' sports. */
  method CombineSports(b: Classification, sports: Option<set<Sport>>,
                       ghost answers: seq<Option<Sport>>) returns (res: Classification)
    requires Gathers(answers, sports)
    ensures res == Combine(b, answers)
  {
    if sports.None? {
      return Refuse(b, COMBO_LEG_UNRESOLVED);
    }
    SameSize(sports.value);
    ghost var all := set a | a in answers;
    forall a | a in all ensures a in set s | s in sports.value :: Some(s) {
      assert a.Some? && a.value in sports.value;
    }
    assert all == set s | s in sports.value :: Some(s);
    if |sports.value| != 1 {
      return Refuse(b, COMBO_LEGS_SPAN_SPORTS);
    }
    var sport := Only(sports.value);
    assert all == {Some(sport)};
    assert Only(all) == Some(sport);
    if b.sport != UNRESOLVED {
      return if b.sport == sport then b else Refuse(b, EVIDENCE_CONFLICT);
    }
    res := b.(sport := sport, resolvedBy := Some(COMBO_LEGS), reason := None);
  }

  /** `sports` is what the answers amount to: nothing as soon as one of them is unusable. */
  ghost predicate Gathers(answers: seq<Option<Sport>>, sports: Option<set<Sport>>) {
    && (sports.None? <==> None in answers)
    && (sports.Some? ==> forall s :: s in sports.value <==> Some(s) in answers)
  }

  /** Every leg in turn; the first unusable one ends it. */
  method LegSportsLoop(src: Sources, resolve: string -> Context,
                       legs: seq<Option<string>>) returns (res: Option<set<Sport>>)
    requires AllStated(legs)
    ensures Gathers(Answers(src, resolve, legs), res)
  {
    var sports: set<Sport> := {};
    ghost var answers := Answers(src, resolve, legs);
    for i := 0 to |legs|
      invariant Gathers(answers[..i], Some(sports))
    {
      var leg := resolve(legs[i].value);
      assert answers[i] == LegSport(src, leg);
      assert answers[..i + 1] == answers[..i] + [answers[i]];
      if IsCombo(leg) {
        assert answers[i] == None;
        return None;
      }
      var verdict := ClassifyMarket(src, leg.evidence);
      if verdict.sport !in ROUTABLE_SPORTS {
        assert answers[i] == None;
        return None;
      }
      sports := sports + {verdict.sport};
    }
    assert answers[..|legs|] == answers;
    res := Some(sports);
  }

  lemma {:induction false} SameSize(sports: set<Sport>)
    ensures |set s | s in sports :: Some(s)| == |sports|
  {
    if sports != {} {
      var s :| s in sports;
      SameSize(sports - {s});
      assert (set t | t in sports :: Some(t)) == (set t | t in sports - {s} :: Some(t)) + {Some(s)};
    }
  }

  /** Legs may be listed in any order and any number of times: the sport and the reason depend only
      on the set of legs. */
  lemma LegsOrderAndRepeatsIrrelevant(src: Sources, resolve: string -> Context, c: Context, legs: seq<Option<string>>)
    requires forall leg :: leg in c.legs <==> leg in legs
    ensures ClassifyWithLegs(src, resolve, c.(legs := legs)) == ClassifyWithLegs(src, resolve, c)
  {
    SameLegs(src, resolve, c.legs, legs);
    if AllStated(c.legs) && AllStated(legs) {
      CombineSame(ClassifyMarket(src, c.evidence), Answers(src, resolve, c.legs), Answers(src, resolve, legs));
    }
  }

  lemma CombineSame(b: Classification, x: seq<Option<Sport>>, y: seq<Option<Sport>>)
    requires forall a :: a in x <==> a in y
    ensures Combine(b, x) == Combine(b, y)
  {
    assert (set a | a in x) == (set a | a in y);
  }

  lemma SameLegs(src: Sources, resolve: string -> Context, a: seq<Option<string>>, b: seq<Option<string>>)
    requires forall leg :: leg in a <==> leg in b
    ensures a == [] <==> b == []
    ensures AllStated(a) <==> AllStated(b)
    ensures AllStated(a) && AllStated(b) ==> forall s :: s in Answers(src, resolve, a) <==> s in Answers(src, resolve, b)
  {
    if a != [] { assert a[0] in b; }
    if b != [] { assert b[0] in a; }
    if AllStated(a) { StatedAlike(a, b); }
    if AllStated(b) { StatedAlike(b, a); }
    if AllStated(a) {
      AnswersWithin(src, resolve, a, b);
      AnswersWithin(src, resolve, b, a);
    }
  }

  lemma StatedAlike(a: seq<Option<string>>, b: seq<Option<string>>)
    requires AllStated(a) && forall leg :: leg in b ==> leg in a
    ensures AllStated(b)
  {
    forall i | 0 <= i < |b| ensures b[i].Some? {
      assert b[i] in a;
      var j :| 0 <= j < |a| && a[j] == b[i];
    }
  }

  lemma AnswersWithin(src: Sources, resolve: string -> Context, a: seq<Option<string>>, b: seq<Option<string>>)
    requires AllStated(a) && AllStated(b) && forall leg :: leg in a ==> leg in b
    ensures forall s :: s in Answers(src, resolve, a) ==> s in Answers(src, resolve, b)
  {
    var x, y := Answers(src, resolve, a), Answers(src, resolve, b);
    forall s | s in x ensures s in y {
      var i :| 0 <= i < |x| && x[i] == s;
      assert a[i] in b;
      var j :| 0 <= j < |b| && b[j] == a[i];
      assert y[j] == s;
    }
  }

  lemma MarketsNameNoLegs(src: Sources, e: Evidence)
    ensures ClassifyMarket(src, e).resolvedBy != Some(COMBO_LEGS)
  {
    WinnerIsAnswered(src, e);
    WinnerIs(src, e);
    EventSpeaks(src, e);
    SeriesLevel(e);
  }

  /** Legs decide only when every one of them is stated and all are one routable sport, and only
      where the combo's own evidence said nothing. */
  lemma LegsDecideIff(src: Sources, resolve: string -> Context, c: Context)
    ensures ClassifyWithLegs(src, resolve, c).resolvedBy == Some(COMBO_LEGS) <==>
      && IsCombo(c) && c.legs != [] && AllStated(c.legs)
      && ClassifyMarket(src, c.evidence).sport == UNRESOLVED && Completable(ClassifyMarket(src, c.evidence))
      && (exists s :: forall i | 0 <= i < |c.legs| :: LegSport(src, resolve(c.legs[i].value)) == Some(s))
  {
    MarketsNameNoLegs(src, c.evidence);
    if IsCombo(c) && c.legs != [] && AllStated(c.legs) {
      UnanimousIff(src, resolve, c.legs);
      CombineDecidesIff(ClassifyMarket(src, c.evidence), Answers(src, resolve, c.legs));
    }
  }

  /** The i-th leg is stated, is no combo itself, and is classified as this one of our sports. */
  ghost predicate LegIs(src: Sources, resolve: string -> Context, legs: seq<Option<string>>, i: int, s: Sport) {
    && 0 <= i < |legs| && legs[i].Some? && resolve(legs[i].value).legs == [] && !resolve(legs[i].value).inCollection
    && ClassifyMarket(src, resolve(legs[i].value).evidence).sport == s && s in {MLB, NFL, CFB, NHL, NBA, SOCCER, TENNIS}
  }

  ghost predicate LegUsable(src: Sources, resolve: string -> Context, legs: seq<Option<string>>, i: int) {
    exists s: Sport :: LegIs(src, resolve, legs, i, s)
  }

  ghost function RefusedFor(b: Classification, reason: Reason): Classification {
    Classification(UNRESOLVED, None, Some(reason), b.unverified, b.conflict, b.rescuableBy)
  }

  /** Its own evidence names a sport, or came up empty without refusing one. */
  ghost predicate OpenToLegs(b: Classification) {
    b.sport != UNRESOLVED || b.reason in {Some(COMPETITION_ABSENT), Some(INSUFFICIENT)}
  }

  /** When the legs are not asked at all. */
  lemma LegsNotAsked(src: Sources, resolve: string -> Context, c: Context)
    ensures var b, res := ClassifyMarket(src, c.evidence), ClassifyWithLegs(src, resolve, c);
      && ((c.legs == [] && !c.inCollection) || !OpenToLegs(b) ==> res == b)
      && ((c.legs != [] || c.inCollection) && OpenToLegs(b) && (c.legs == [] || None in c.legs) ==>
            res == if b.sport == UNRESOLVED then RefusedFor(b, COMBO_LEGS_UNAVAILABLE) else b)
  {
    assert AllStated(c.legs) <==> None !in c.legs;
  }

  /** All legs are stated, and one of them is a combo itself or none of our sports. */
  lemma LegUnusable(src: Sources, resolve: string -> Context, c: Context, i: int)
    requires OpenToLegs(ClassifyMarket(src, c.evidence)) && None !in c.legs
    requires 0 <= i < |c.legs| && !LegUsable(src, resolve, c.legs, i)
    ensures ClassifyWithLegs(src, resolve, c) == RefusedFor(ClassifyMarket(src, c.evidence), COMBO_LEG_UNRESOLVED)
  {
    assert AllStated(c.legs);
    AnswerIs(src, resolve, c.legs, i);
    assert Answers(src, resolve, c.legs)[i] == None;
    CombineIs(ClassifyMarket(src, c.evidence), Answers(src, resolve, c.legs));
  }

  /** All legs are sports of ours, and two of them differ. */
  lemma LegsSpan(src: Sources, resolve: string -> Context, c: Context, i: int, j: int)
    requires OpenToLegs(ClassifyMarket(src, c.evidence)) && None !in c.legs
    requires forall k | 0 <= k < |c.legs| :: LegUsable(src, resolve, c.legs, k)
    requires 0 <= i < |c.legs| && 0 <= j < |c.legs| && forall s: Sport :: !(LegIs(src, resolve, c.legs, i, s) && LegIs(src, resolve, c.legs, j, s))
    ensures ClassifyWithLegs(src, resolve, c) == RefusedFor(ClassifyMarket(src, c.evidence), COMBO_LEGS_SPAN_SPORTS)
  {
    assert AllStated(c.legs);
    var answers := Answers(src, resolve, c.legs);
    forall k | 0 <= k < |c.legs| ensures answers[k].Some? {
      AnswerIs(src, resolve, c.legs, k);
    }
    AnswerIs(src, resolve, c.legs, i);
    AnswerIs(src, resolve, c.legs, j);
    assert answers[i] != answers[j];
    CombineIs(ClassifyMarket(src, c.evidence), answers);
  }

  /** All legs are the same sport of ours: it is the answer, unless the combo's own evidence names
      another. */
  lemma LegsAgree(src: Sources, resolve: string -> Context, c: Context, s: Sport)
    requires OpenToLegs(ClassifyMarket(src, c.evidence)) && None !in c.legs && c.legs != []
    requires forall k | 0 <= k < |c.legs| :: LegIs(src, resolve, c.legs, k, s)
    ensures var b := ClassifyMarket(src, c.evidence);
      ClassifyWithLegs(src, resolve, c) ==
      if b.sport == UNRESOLVED then Classification(s, Some(COMBO_LEGS), None, b.unverified, b.conflict, b.rescuableBy)
      else if b.sport == s then b
      else RefusedFor(b, EVIDENCE_CONFLICT)
  {
    assert AllStated(c.legs);
    var answers := Answers(src, resolve, c.legs);
    forall k | 0 <= k < |c.legs| ensures answers[k] == Some(s) {
      AnswerIs(src, resolve, c.legs, k);
    }
    CombineIs(ClassifyMarket(src, c.evidence), answers);
  }

  lemma AnswerIs(src: Sources, resolve: string -> Context, legs: seq<Option<string>>, i: int)
    requires AllStated(legs) && 0 <= i < |legs|
    ensures |Answers(src, resolve, legs)| == |legs|
    ensures forall s: Sport :: Answers(src, resolve, legs)[i] == Some(s) <==> LegIs(src, resolve, legs, i, s)
    ensures Answers(src, resolve, legs)[i] == None <==> !LegUsable(src, resolve, legs, i)
  {
    SevenRoutable(ClassifyMarket(src, resolve(legs[i].value).evidence).sport);
    var a := Answers(src, resolve, legs)[i];
    if a.Some? { assert LegIs(src, resolve, legs, i, a.value); }
  }

  lemma CombineIs(b: Classification, answers: seq<Option<Sport>>)
    requires answers != []
    ensures Combine(b, answers) ==
      if None in answers then RefusedFor(b, COMBO_LEG_UNRESOLVED)
      else if exists i, j :: 0 <= i < |answers| && 0 <= j < |answers| && answers[i] != answers[j] then RefusedFor(b, COMBO_LEGS_SPAN_SPORTS)
      else if b.sport == UNRESOLVED then Classification(answers[0].value, Some(COMBO_LEGS), None, b.unverified, b.conflict, b.rescuableBy)
      else if b.sport == answers[0].value then b
      else RefusedFor(b, EVIDENCE_CONFLICT)
  {
    var sports := set a | a in answers;
    assert answers[0] in sports;
    if forall i, j | 0 <= i < |answers| && 0 <= j < |answers| :: answers[i] == answers[j] {
      assert sports == {answers[0]};
    } else {
      var i, j :| 0 <= i < |answers| && 0 <= j < |answers| && answers[i] != answers[j];
      assert answers[i] in sports && answers[j] in sports;
      if |sports| == 1 { var s := Only(sports); }
    }
  }

  ghost predicate Unanimous(answers: seq<Option<Sport>>) {
    answers != [] && answers[0].Some? && forall i | 0 <= i < |answers| :: answers[i] == answers[0]
  }

  lemma UnanimousIff(src: Sources, resolve: string -> Context, legs: seq<Option<string>>)
    requires legs != [] && AllStated(legs)
    ensures Unanimous(Answers(src, resolve, legs)) <==>
            exists s :: forall i | 0 <= i < |legs| :: LegSport(src, resolve(legs[i].value)) == Some(s)
  {
    var answers := Answers(src, resolve, legs);
    assert forall i | 0 <= i < |legs| :: answers[i] == LegSport(src, resolve(legs[i].value));
    if Unanimous(answers) {
      var s := answers[0].value;
      assert forall i | 0 <= i < |legs| :: LegSport(src, resolve(legs[i].value)) == Some(s);
    }
    if s :| forall i | 0 <= i < |legs| :: LegSport(src, resolve(legs[i].value)) == Some(s) {
      assert answers[0] == Some(s);
      forall i | 0 <= i < |legs| ensures answers[i] == Some(s) {
        assert LegSport(src, resolve(legs[i].value)) == Some(s);
      }
    }
  }

  lemma CombineDecidesIff(b: Classification, answers: seq<Option<Sport>>)
    requires answers != [] && b.resolvedBy != Some(COMBO_LEGS)
    ensures Combine(b, answers).resolvedBy == Some(COMBO_LEGS) <==> b.sport == UNRESOLVED && Unanimous(answers)
  {
    var sports := set a | a in answers;
    assert answers[0] in sports;
    if Unanimous(answers) {
      assert sports == {answers[0]};
    }
    if |sports| == 1 {
      var s := Only(sports);
      forall i | 0 <= i < |answers| ensures answers[i] == s {
        assert answers[i] in sports;
      }
    }
  }
}
