/**
 * The closed enumerations of the NL detection result schema, each with
 * the integer or string value it is declared with (its wire value) and a
 * decoder that is the partial inverse of that mapping.
 */
module Enums {
  import opened Wrappers

  /** RankingType: which end of a ranking the query asks for. */
  datatype RankingType = NoRanking | High | Low | Best | Worst

  function RankingTypeValue(t: RankingType): (v: int)
    ensures 0 <= v <= 4
  {
    match t
    case NoRanking => 0
    case High => 1
    case Low => 2
    case Best => 3
    case Worst => 4
  }

  function RankingTypeFromValue(v: int): (r: Option<RankingType>)
    ensures r.Some? <==> 0 <= v <= 4
    ensures r.Some? ==> RankingTypeValue(r.value) == v
  {
    if v == 0 then Some(NoRanking)
    else if v == 1 then Some(High)
    else if v == 2 then Some(Low)
    else if v == 3 then Some(Best)
    else if v == 4 then Some(Worst)
    else None
  }

  lemma RankingTypeRoundTrip(t: RankingType)
    ensures RankingTypeFromValue(RankingTypeValue(t)) == Some(t)
  {
  }

  lemma RankingTypeValueInjective(a: RankingType, b: RankingType)
    ensures RankingTypeValue(a) == RankingTypeValue(b) <==> a == b
  {
    RankingTypeRoundTrip(a);
    RankingTypeRoundTrip(b);
  }

  /** BinaryClassificationResultType: generic success/failure of a binary classifier. */
  datatype BinaryClassificationResultType = Failure | Success

  function BinaryResultValue(t: BinaryClassificationResultType): (v: int)
    ensures 0 <= v <= 1
  {
    match t
    case Failure => 0
    case Success => 1
  }

  function BinaryResultFromValue(v: int): (r: Option<BinaryClassificationResultType>)
    ensures r.Some? <==> 0 <= v <= 1
    ensures r.Some? ==> BinaryResultValue(r.value) == v
  {
    if v == 0 then Some(Failure)
    else if v == 1 then Some(Success)
    else None
  }

  lemma BinaryResultRoundTrip(t: BinaryClassificationResultType)
    ensures BinaryResultFromValue(BinaryResultValue(t)) == Some(t)
  {
  }

  /** ContainedInPlaceType: the granularity of places a query asks for; its values are strings. */
  datatype ContainedInPlaceType =
    | Place | Country | State | Province | County | City | District | Town | Zip | Across

  function ContainedInPlaceTypeValue(t: ContainedInPlaceType): (s: string)
    ensures s != ""
  {
    match t
    case Place => "Place"
    case Country => "Country"
    case State => "State"
    case Province => "Province"
    case County => "County"
    case City => "City"
    case District => "District"
    case Town => "Town"
    case Zip => "CensusZipCodeTabulationArea"
    case Across => "Across"
  }

  function ContainedInPlaceTypeFromValue(s: string): (r: Option<ContainedInPlaceType>)
    ensures r.None? ==> forall t :: ContainedInPlaceTypeValue(t) != s
    ensures r.Some? ==> ContainedInPlaceTypeValue(r.value) == s
  {
    if s == "Place" then Some(Place)
    else if s == "Country" then Some(Country)
    else if s == "State" then Some(State)
    else if s == "Province" then Some(Province)
    else if s == "County" then Some(County)
    else if s == "City" then Some(City)
    else if s == "District" then Some(District)
    else if s == "Town" then Some(Town)
    else if s == "CensusZipCodeTabulationArea" then Some(Zip)
    else if s == "Across" then Some(Across)
    else None
  }

  /** Decoding a member's own string gives back that member. */
  lemma ContainedInPlaceTypeRoundTrip(t: ContainedInPlaceType)
    ensures ContainedInPlaceTypeFromValue(ContainedInPlaceTypeValue(t)) == Some(t)
  {
  }

  /** The ten string values are pairwise distinct. */
  lemma ContainedInPlaceTypeValueInjective(a: ContainedInPlaceType, b: ContainedInPlaceType)
    ensures ContainedInPlaceTypeValue(a) == ContainedInPlaceTypeValue(b) <==> a == b
  {
    ContainedInPlaceTypeRoundTrip(a);
    ContainedInPlaceTypeRoundTrip(b);
  }

  /** EventType: which kind of natural event a query is about. */
  datatype EventType = Cold | Cyclone | Earthquake | Drought | Fire | Flood | Heat | Wetbulb

  function EventTypeValue(t: EventType): (v: int)
    ensures 0 <= v <= 7
  {
    match t
    case Cold => 0
    case Cyclone => 1
    case Earthquake => 2
    case Drought => 3
    case Fire => 4
    case Flood => 5
    case Heat => 6
    case Wetbulb => 7
  }

  function EventTypeFromValue(v: int): (r: Option<EventType>)
    ensures r.Some? <==> 0 <= v <= 7
    ensures r.Some? ==> EventTypeValue(r.value) == v
  {
    if v == 0 then Some(Cold)
    else if v == 1 then Some(Cyclone)
    else if v == 2 then Some(Earthquake)
    else if v == 3 then Some(Drought)
    else if v == 4 then Some(Fire)
    else if v == 5 then Some(Flood)
    else if v == 6 then Some(Heat)
    else if v == 7 then Some(Wetbulb)
    else None
  }

  lemma EventTypeRoundTrip(t: EventType)
    ensures EventTypeFromValue(EventTypeValue(t)) == Some(t)
  {
  }

  lemma EventTypeValueInjective(a: EventType, b: EventType)
    ensures EventTypeValue(a) == EventTypeValue(b) <==> a == b
  {
    EventTypeRoundTrip(a);
    EventTypeRoundTrip(b);
  }

  /** PeriodType: the kind of date range a temporal query names. */
  datatype PeriodType = NoPeriod | Exact | Until | From

  function PeriodTypeValue(t: PeriodType): (v: int)
    ensures 0 <= v <= 3
  {
    match t
    case NoPeriod => 0
    case Exact => 1
    case Until => 2
    case From => 3
  }

  function PeriodTypeFromValue(v: int): (r: Option<PeriodType>)
    ensures r.Some? <==> 0 <= v <= 3
    ensures r.Some? ==> PeriodTypeValue(r.value) == v
  {
    if v == 0 then Some(NoPeriod)
    else if v == 1 then Some(Exact)
    else if v == 2 then Some(Until)
    else if v == 3 then Some(From)
    else None
  }

  lemma PeriodTypeRoundTrip(t: PeriodType)
    ensures PeriodTypeFromValue(PeriodTypeValue(t)) == Some(t)
  {
  }

  /** TimeDeltaType: whether the query is about an increase or a decrease. */
  datatype TimeDeltaType = Increase | Decrease

  function TimeDeltaTypeValue(t: TimeDeltaType): (v: int)
    ensures 0 <= v <= 1
  {
    match t
    case Increase => 0
    case Decrease => 1
  }

  function TimeDeltaTypeFromValue(v: int): (r: Option<TimeDeltaType>)
    ensures r.Some? <==> 0 <= v <= 1
    ensures r.Some? ==> TimeDeltaTypeValue(r.value) == v
  {
    if v == 0 then Some(Increase)
    else if v == 1 then Some(Decrease)
    else None
  }

  lemma TimeDeltaTypeRoundTrip(t: TimeDeltaType)
    ensures TimeDeltaTypeFromValue(TimeDeltaTypeValue(t)) == Some(t)
  {
  }

  /** ClassificationType: the kind of query a classifier recognised. */
  datatype ClassificationType =
    | Other | Simple | Ranking | Temporal | ContainedIn | Correlation
    | Clustering | Comparison | TimeDelta | Event | Overview | Unknown

  function ClassificationTypeValue(t: ClassificationType): (v: int)
    ensures 0 <= v <= 11
    ensures v == 0 <==> t == Other
    ensures v == 11 <==> t == Unknown
  {
    match t
    case Other => 0
    case Simple => 1
    case Ranking => 2
    case Temporal => 3
    case ContainedIn => 4
    case Correlation => 5
    case Clustering => 6
    case Comparison => 7
    case TimeDelta => 8
    case Event => 9
    case Overview => 10
    case Unknown => 11
  }

  function ClassificationTypeFromValue(v: int): (r: Option<ClassificationType>)
    ensures r.Some? <==> 0 <= v <= 11
    ensures r.Some? ==> ClassificationTypeValue(r.value) == v
  {
    if v == 0 then Some(Other)
    else if v == 1 then Some(Simple)
    else if v == 2 then Some(Ranking)
    else if v == 3 then Some(Temporal)
    else if v == 4 then Some(ContainedIn)
    else if v == 5 then Some(Correlation)
    else if v == 6 then Some(Clustering)
    else if v == 7 then Some(Comparison)
    else if v == 8 then Some(TimeDelta)
    else if v == 9 then Some(Event)
    else if v == 10 then Some(Overview)
    else if v == 11 then Some(Unknown)
    else None
  }

  lemma ClassificationTypeRoundTrip(t: ClassificationType)
    ensures ClassificationTypeFromValue(ClassificationTypeValue(t)) == Some(t)
  {
  }

  /** The twelve members have twelve distinct values. */
  lemma ClassificationTypeValueInjective(a: ClassificationType, b: ClassificationType)
    ensures ClassificationTypeValue(a) == ClassificationTypeValue(b) <==> a == b
  {
    ClassificationTypeRoundTrip(a);
    ClassificationTypeRoundTrip(b);
  }
}
