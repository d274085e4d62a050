/**
 * Choosing the one classification type of a query from every classifier
 * that fired: the ranked list of supported types, where a later entry is
 * preferred, and UNKNOWN when no ranked type fired.
 */
module Resolver {
  import opened Enums
  import opened Schema

  /** The supported classification types in order; a later entry is preferred. */
  const RankedClassificationTypes: seq<ClassificationType> :=
    [Simple, Comparison, ContainedIn, Ranking, Correlation, TimeDelta, Event]

  /** The ranked list has seven distinct entries and leaves out five of the twelve types. */
  lemma RankedClassificationTypesShape()
    ensures |RankedClassificationTypes| == 7
    ensures forall i, j :: 0 <= i < j < |RankedClassificationTypes| ==>
              RankedClassificationTypes[i] != RankedClassificationTypes[j]
    ensures Other !in RankedClassificationTypes && Unknown !in RankedClassificationTypes
    ensures Temporal !in RankedClassificationTypes && Clustering !in RankedClassificationTypes
    ensures Overview !in RankedClassificationTypes
  {
  }

  /** The position of a type in the ranked list, or -1 for a type that is not ranked. */
  function Priority(t: ClassificationType): (p: int)
    ensures -1 <= p < |RankedClassificationTypes|
    ensures p >= 0 ==> RankedClassificationTypes[p] == t
  {
    match t
    case Simple => 0
    case Comparison => 1
    case ContainedIn => 2
    case Ranking => 3
    case Correlation => 4
    case TimeDelta => 5
    case Event => 6
    case _ => -1
  }

  /** Priority finds every entry of the ranked list at its own position, and nothing else. */
  lemma PriorityIsPosition(t: ClassificationType)
    ensures Priority(t) >= 0 <==> t in RankedClassificationTypes
    ensures forall k :: 0 <= k < |RankedClassificationTypes| && RankedClassificationTypes[k] == t ==> Priority(t) == k
  {
    RankedClassificationTypesShape();
  }

  /** Some classifier in `cs` has type `t`. */
  predicate Present(cs: seq<NLClassifier>, t: ClassificationType) {
    exists c :: c in cs && c.classificationType == t
  }

  /** No classifier in `cs` has a ranked type. */
  predicate NoRankedTypePresent(cs: seq<NLClassifier>) {
    forall k :: 0 <= k < |RankedClassificationTypes| ==> !Present(cs, RankedClassificationTypes[k])
  }

  /**
   * Walks the ranked list from position `i` to its end and keeps the last
   * entry present in `cs`; `found` is what was kept before position `i`.
   */
  function ScanRanked(cs: seq<NLClassifier>, i: nat, found: ClassificationType): (r: ClassificationType)
    requires i <= |RankedClassificationTypes|
    ensures r == found || (i <= Priority(r) && Present(cs, r))
    ensures (forall k :: i <= k < |RankedClassificationTypes| ==> !Present(cs, RankedClassificationTypes[k])) ==> r == found
    ensures forall k :: i <= k < |RankedClassificationTypes| && Present(cs, RankedClassificationTypes[k]) ==>
              k <= Priority(r) && Present(cs, r)
    decreases |RankedClassificationTypes| - i
  {
    if i == |RankedClassificationTypes| then found
    else
      var t := RankedClassificationTypes[i];
      assert Priority(t) == i;
      ScanRanked(cs, i + 1, if Present(cs, t) then t else found)
  }

  /**
   * The query type of a detection: the type present in `cs` that comes
   * latest in the ranked list, or UNKNOWN when none is present.
   */
  function Resolve(cs: seq<NLClassifier>): (r: ClassificationType)
    ensures r == Unknown <==> NoRankedTypePresent(cs)
    ensures r != Unknown ==> 0 <= Priority(r) && Present(cs, r)
    ensures forall k :: 0 <= k < |RankedClassificationTypes| && Present(cs, RankedClassificationTypes[k]) ==>
              k <= Priority(r)
  {
    ScanRanked(cs, 0, Unknown)
  }

  /**
   * "Later entry is preferred", read directly off the list: `r` is a
   * ranked type that is present, and no entry after it is.
   */
  ghost predicate Preferred(cs: seq<NLClassifier>, r: ClassificationType) {
    && r in RankedClassificationTypes
    && Present(cs, r)
    && forall j :: Priority(r) < j < |RankedClassificationTypes| ==> !Present(cs, RankedClassificationTypes[j])
  }

  /** Resolve returns exactly the preferred present type, or UNKNOWN when no ranked type is present. */
  lemma ResolveCharacterization(cs: seq<NLClassifier>, r: ClassificationType)
    ensures Resolve(cs) == r <==> Preferred(cs, r) || (r == Unknown && NoRankedTypePresent(cs))
  {
    var q := Resolve(cs);
    PriorityIsPosition(q);
    PriorityIsPosition(r);
    if q != Unknown {
      assert RankedClassificationTypes[Priority(q)] == q;
    }
    if Preferred(cs, r) {
      assert RankedClassificationTypes[Priority(r)] == r;
      assert Priority(r) <= Priority(q);
      assert RankedClassificationTypes[Priority(q)] == q;
    }
  }

  /** The result depends only on which types are present in `cs`. */
  lemma ResolveDependsOnlyOnPresentTypes(cs1: seq<NLClassifier>, cs2: seq<NLClassifier>)
    requires forall t :: Present(cs1, t) <==> Present(cs2, t)
    ensures Resolve(cs1) == Resolve(cs2)
  {
    var r := Resolve(cs1);
    ResolveCharacterization(cs1, r);
    ResolveCharacterization(cs2, r);
  }

  /** Reordering the classifiers does not change the result. */
  lemma ResolveOrderIndependent(cs1: seq<NLClassifier>, cs2: seq<NLClassifier>)
    requires multiset(cs1) == multiset(cs2)
    ensures Resolve(cs1) == Resolve(cs2)
  {
    forall t
      ensures Present(cs1, t) <==> Present(cs2, t)
    {
      if Present(cs1, t) {
        var c :| c in cs1 && c.classificationType == t;
        assert c in multiset(cs1);
      }
      if Present(cs2, t) {
        var c :| c in cs2 && c.classificationType == t;
        assert c in multiset(cs2);
      }
    }
    ResolveDependsOnlyOnPresentTypes(cs1, cs2);
  }

  /** Only the classifiers' types matter, not their attribute payloads. */
  lemma ResolveIgnoresAttributes(cs1: seq<NLClassifier>, cs2: seq<NLClassifier>)
    requires |cs1| == |cs2|
    requires forall i :: 0 <= i < |cs1| ==> cs1[i].classificationType == cs2[i].classificationType
    ensures Resolve(cs1) == Resolve(cs2)
  {
    forall t
      ensures Present(cs1, t) <==> Present(cs2, t)
    {
      if Present(cs1, t) {
        var c :| c in cs1 && c.classificationType == t;
        var i :| 0 <= i < |cs1| && cs1[i] == c;
        assert cs2[i] in cs2;
      }
      if Present(cs2, t) {
        var c :| c in cs2 && c.classificationType == t;
        var i :| 0 <= i < |cs2| && cs2[i] == c;
        assert cs1[i] in cs1;
      }
    }
    ResolveDependsOnlyOnPresentTypes(cs1, cs2);
  }

  /** When a later ranked type is present, no earlier ranked type is chosen. */
  lemma LaterRankedTypeBeatsEarlier(cs: seq<NLClassifier>, i: nat, j: nat)
    requires i < j < |RankedClassificationTypes|
    requires Present(cs, RankedClassificationTypes[j])
    ensures Resolve(cs) != RankedClassificationTypes[i]
  {
    RankedClassificationTypesShape();
    assert Priority(RankedClassificationTypes[j]) == j;
    assert Priority(RankedClassificationTypes[i]) == i;
  }

  /** RANKING beats CONTAINED_IN, COMPARISON and SIMPLE. */
  lemma RankingBeatsContainedInAndComparison(cs: seq<NLClassifier>)
    requires Present(cs, Ranking)
    ensures Resolve(cs) != ContainedIn && Resolve(cs) != Comparison && Resolve(cs) != Simple
  {
    LaterRankedTypeBeatsEarlier(cs, 2, 3);
    LaterRankedTypeBeatsEarlier(cs, 1, 3);
    LaterRankedTypeBeatsEarlier(cs, 0, 3);
  }

  /** EVENT, the last entry, wins whenever it is present. */
  lemma EventAlwaysWins(cs: seq<NLClassifier>)
    requires Present(cs, Event)
    ensures Resolve(cs) == Event
  {
    assert Priority(Event) == 6;
  }

  /** When exactly one ranked type is present, it is the result. */
  lemma SingleRankedTypeWins(cs: seq<NLClassifier>, t: ClassificationType)
    requires t in RankedClassificationTypes && Present(cs, t)
    requires forall u :: u in RankedClassificationTypes && u != t ==> !Present(cs, u)
    ensures Resolve(cs) == t
  {
  }

  /** With no classifiers at all the result is UNKNOWN. */
  lemma EmptyClassificationsResolveToUnknown()
    ensures Resolve([]) == Unknown
  {
  }

  /** A single SIMPLE classifier resolves to SIMPLE. */
  lemma ScenarioSimpleOnly(simple: seq<ClassificationAttributes>)
    ensures Resolve([NLClassifier(Simple, simple)]) == Simple
  {
    var cs := [NLClassifier(Simple, simple)];
    assert cs[0] in cs;
    SingleRankedTypeWins(cs, Simple);
  }

  /** COMPARISON then RANKING resolves to RANKING. */
  lemma ScenarioComparisonThenRanking(comparison: seq<ClassificationAttributes>, ranking: seq<ClassificationAttributes>)
    ensures Resolve([NLClassifier(Comparison, comparison), NLClassifier(Ranking, ranking)]) == Ranking
  {
    var cs := [NLClassifier(Comparison, comparison), NLClassifier(Ranking, ranking)];
    assert cs[1] in cs;
    assert Priority(Ranking) == 3;
    assert forall u :: u in RankedClassificationTypes && Priority(u) > 3 ==> !Present(cs, u);
  }

  /** TIME_DELTA, EVENT and CORRELATION resolve to EVENT. */
  lemma ScenarioTimeDeltaEventCorrelation(
    timeDelta: seq<ClassificationAttributes>, event: seq<ClassificationAttributes>,
    correlation: seq<ClassificationAttributes>)
    ensures Resolve([NLClassifier(TimeDelta, timeDelta), NLClassifier(Event, event),
                     NLClassifier(Correlation, correlation)]) == Event
  {
    var cs := [NLClassifier(TimeDelta, timeDelta), NLClassifier(Event, event), NLClassifier(Correlation, correlation)];
    assert cs[1] in cs;
    EventAlwaysWins(cs);
  }

  /** The detection's queryType is the one the resolver picks for its classifications. */
  predicate QueryTypeResolved(d: Detection) {
    d.queryType == Resolve(d.classifications)
  }

  /**
   * A detection built without queryType (so UNKNOWN) agrees with the
   * resolver exactly when none of its classifiers has a ranked type.
   */
  lemma DefaultQueryTypeResolvedIffNoRankedType(
    original: string, cleaned: string, places: PlaceDetection, svs: SVDetection, cs: seq<NLClassifier>)
    ensures QueryTypeResolved(Detection(original, cleaned, places, svs, cs)) <==> NoRankedTypePresent(cs)
  {
  }
}
