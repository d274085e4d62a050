/**
 * The NL detection result: per-classification attribute payloads as one
 * tagged union, the classifier record that carries them, and the place,
 * SV and aggregate detection records. All of it is immutable value data.
 */
module Schema {
  import opened Enums

  /**
   * One constructor per ClassificationAttributes subclass. OTHER and
   * UNKNOWN have no payload class; SIMPLE has one with no fields.
   */
  datatype ClassificationAttributes =
    | SimpleAttributes
    | RankingAttributes(rankingType: seq<RankingType>, rankingTriggerWords: seq<string>)
    | ComparisonAttributes(comparisonTriggerWords: seq<string>)
    | TemporalAttributes(dateStr: string, dateType: PeriodType)
    | ContainedInAttributes(containedInPlaceType: ContainedInPlaceType)
    | ClusteringAttributes(
        svDcid1: string,
        svDcid2: string,
        // true when svDcid1 comes from cluster1Svs and svDcid2 from cluster2Svs
        isUsingClusters: bool,
        correlationTriggerWords: string,
        cluster1Svs: seq<string>,
        cluster2Svs: seq<string>)
    | CorrelationAttributes(correlationTriggerWords: string)
    | EventAttributes(eventTypes: seq<EventType>, eventTriggerWords: seq<string>)
    | OverviewAttributes(overviewTriggerWords: seq<string>)
    | TimeDeltaAttributes(timeDeltaTypes: seq<TimeDeltaType>, timeDeltaTriggerWords: seq<string>)

  /** The classification type a payload shape belongs to. */
  function AttributesType(a: ClassificationAttributes): (t: ClassificationType)
    ensures t != Other && t != Unknown
  {
    match a
    case SimpleAttributes => Simple
    case RankingAttributes(_, _) => Ranking
    case ComparisonAttributes(_) => Comparison
    case TemporalAttributes(_, _) => Temporal
    case ContainedInAttributes(_) => ContainedIn
    case ClusteringAttributes(_, _, _, _, _, _) => Clustering
    case CorrelationAttributes(_) => Correlation
    case EventAttributes(_, _) => Event
    case OverviewAttributes(_) => Overview
    case TimeDeltaAttributes(_, _) => TimeDelta
  }

  /** Every classification type except OTHER and UNKNOWN has a payload shape of its own. */
  lemma EveryClassifiedTypeHasPayload(t: ClassificationType)
    requires t != Other && t != Unknown
    ensures exists a :: AttributesType(a) == t
  {
    match t
    case Simple => assert AttributesType(SimpleAttributes) == t;
    case Ranking => assert AttributesType(RankingAttributes([], [])) == t;
    case Comparison => assert AttributesType(ComparisonAttributes([])) == t;
    case Temporal => assert AttributesType(TemporalAttributes("", NoPeriod)) == t;
    case ContainedIn => assert AttributesType(ContainedInAttributes(ContainedInPlaceType.Place)) == t;
    case Clustering => assert AttributesType(ClusteringAttributes("", "", false, "", [], [])) == t;
    case Correlation => assert AttributesType(CorrelationAttributes("")) == t;
    case Event => assert AttributesType(EventAttributes([], [])) == t;
    case Overview => assert AttributesType(OverviewAttributes([])) == t;
    case TimeDelta => assert AttributesType(TimeDeltaAttributes([], [])) == t;
  }

  /** A classifier that fired: its type and the payloads it produced. */
  datatype NLClassifier = NLClassifier(classificationType: ClassificationType, attributes: seq<ClassificationAttributes>)

  /**
   * Every payload has the shape of the classifier's type. The source does
   * not check this; it is what consumers that switch on the type rely on.
   */
  predicate WellFormedClassifier(c: NLClassifier) {
    forall a :: a in c.attributes ==> AttributesType(a) == c.classificationType
  }

  /** A well-formed OTHER or UNKNOWN classifier can carry no payload at all. */
  lemma UntypedClassifierHasNoAttributes(c: NLClassifier)
    requires WellFormedClassifier(c)
    ensures c.classificationType == Other || c.classificationType == Unknown ==> c.attributes == []
  {
    if c.attributes != [] {
      assert c.attributes[0] in c.attributes;
    }
  }

  datatype Place = Place(dcid: string, name: string, placeType: string)

  /** Place detection; both fallback flags default to false. */
  datatype PlaceDetection = PlaceDetection(
    queryOriginal: string,
    queryWithoutPlaceSubstr: string,
    placesFound: seq<string>,
    mainPlace: Place,
    usingDefaultPlace: bool := false,
    usingFromContext: bool := false)

  /** PlaceDetection built without the optional flags uses neither fallback. */
  lemma PlaceDetectionDefaults(q: string, w: string, found: seq<string>, main: Place)
    ensures !PlaceDetection(q, w, found, main).usingDefaultPlace
    ensures !PlaceDetection(q, w, found, main).usingFromContext
  {
  }

  /** A score as the IEEE-754 double the source stores, kept as its bit pattern. */
  datatype Float64 = Float64(bits: bv64)

  /** SV detection: candidate SV dcids with their scores, in the same order. */
  datatype SVDetection = SVDetection(
    query: string,
    svDcids: seq<string>,
    svScores: seq<Float64>,
    svsToSentences: map<string, seq<string>>)

  /** svScores[i] is the score of svDcids[i]: the two lists have one entry per SV. */
  predicate ScoresPaired(d: SVDetection) {
    |d.svDcids| == |d.svScores|
  }

  /** The detection result for one query; queryType defaults to UNKNOWN. */
  datatype Detection = Detection(
    originalQuery: string,
    cleanedQuery: string,
    placesDetected: PlaceDetection,
    svsDetected: SVDetection,
    classifications: seq<NLClassifier>,
    queryType: ClassificationType := Unknown)

  /** Detection built without queryType has queryType UNKNOWN. */
  lemma DetectionDefaultQueryType(
    original: string, cleaned: string, places: PlaceDetection, svs: SVDetection, cs: seq<NLClassifier>)
    ensures Detection(original, cleaned, places, svs, cs).queryType == Unknown
  {
  }

  /** What consumers of a detection assume of it (not checked by the source). */
  predicate WellFormedDetection(d: Detection) {
    && ScoresPaired(d.svsDetected)
    && forall c :: c in d.classifications ==> WellFormedClassifier(c)
  }
}
