# NL detection result schema and classification resolution

A Dafny model of `server/lib/nl/detection.py`, the result schema of the
natural-language query detection pipeline. Upstream detectors find the places
and statistical variables (SVs) named in a query, and one or more classifiers
label the query (ranking, comparison, temporal, containment, correlation,
clustering, event, time delta, overview). The result records what they found.
The one piece of decision logic is choosing a single `query_type` from all the
classifiers that fired. The ranked list `RANKED_CLASSIFICATION_TYPES`
decides it: a later entry is preferred.

Everything here is immutable value data, so the model uses only datatypes,
functions and lemmas:

- `wrappers.dfy` (module `Wrappers`): `Option`, the result of decoding a wire value.
- `enums.dfy` (module `Enums`): `RankingType`, `BinaryClassificationResultType`,
  `ContainedInPlaceType`, `EventType`, `PeriodType`, `TimeDeltaType` and
  `ClassificationType`. Each has a function giving its declared integer or string
  value and a decoder that is its partial inverse. Members are renamed to Dafny
  style (`ZIP` is `Zip`, `TIME_DELTA` is `TimeDelta`). The two `NONE` members become
  `NoRanking` and `NoPeriod`, so they do not clash with `Option.None`.
- `schema.dfy` (module `Schema`): the `ClassificationAttributes` subclasses as one
  tagged union with a constructor per subclass, `NLClassifier`, `Place`,
  `PlaceDetection`, `SVDetection` and `Detection`. The source's defaulted dataclass
  fields become constructor parameters with the same defaults.
  `WellFormedClassifier` pairs each classification type with its payload shape.
- `resolver.dfy` (module `Resolver`): `RankedClassificationTypes` and `Resolve`.

`detection.py` declares the ranked list (lines 241-250) but contains no code
that applies it. `Resolve` is written from the comment "Later entry is
preferred" and the `UNKNOWN` default of `Detection.query_type` (line 268). It
walks the ranked list from first to last and keeps the last entry that some
classifier has. If no classifier has a ranked type, the result is `UNKNOWN`.

The source enforces less than a design reading of the schema might suggest:

- `ranking_type` is a `List` with no non-emptiness check, so it is a `seq`.
- No dataclass validates anything when it is built. Payloads are not checked
  against their classifier's type, and `sv_dcids`/`sv_scores` lengths are not
  compared. `WellFormedClassifier`, `ScoresPaired` and `WellFormedDetection` are
  therefore predicates a consumer may assume, not properties of construction.
- Nothing requires `main_place` to be one of `places_found`, so the model does
  not state that either.
- The resolver can never produce `OTHER`. Only `UNKNOWN` is the "nothing ranked
  fired" result.

## Model

| member | source | states |
|---|---|---|
| Enums.RankingTypeValue | server/lib/nl/detection.py:54-78 | every ranking type has a value in 0..4 |
| Enums.RankingTypeFromValue | server/lib/nl/detection.py:54-78 | decoding succeeds exactly on 0..4 and returns the member whose value it is |
| Enums.RankingTypeRoundTrip | server/lib/nl/detection.py:54-78 | decoding a member's value gives back that member |
| Enums.RankingTypeValueInjective | server/lib/nl/detection.py:54-78 | two ranking types have the same value iff they are the same member |
| Enums.BinaryResultValue | server/lib/nl/detection.py:81-84 | FAILURE and SUCCESS have values in 0..1 |
| Enums.BinaryResultFromValue | server/lib/nl/detection.py:81-84 | decoding succeeds exactly on 0..1 and inverts the value mapping |
| Enums.BinaryResultRoundTrip | server/lib/nl/detection.py:81-84 | decoding a member's value gives back that member |
| Enums.ContainedInPlaceTypeValue | server/lib/nl/detection.py:87-101 | every contained-in place type has a non-empty string value |
| Enums.ContainedInPlaceTypeFromValue | server/lib/nl/detection.py:87-101 | decoding returns a member only for that member's own string and fails only on strings that are no member's value |
| Enums.ContainedInPlaceTypeRoundTrip | server/lib/nl/detection.py:87-101 | decoding a member's string (e.g. Zip's "CensusZipCodeTabulationArea") gives back that member |
| Enums.ContainedInPlaceTypeValueInjective | server/lib/nl/detection.py:87-101 | the ten string values are pairwise distinct |
| Enums.EventTypeValue | server/lib/nl/detection.py:104-113 | every event type has a value in 0..7 |
| Enums.EventTypeFromValue | server/lib/nl/detection.py:104-113 | decoding succeeds exactly on 0..7 and inverts the value mapping |
| Enums.EventTypeRoundTrip | server/lib/nl/detection.py:104-113 | decoding a member's value gives back that member |
| Enums.EventTypeValueInjective | server/lib/nl/detection.py:104-113 | two event types have the same value iff they are the same member |
| Enums.PeriodTypeValue | server/lib/nl/detection.py:116-121 | every period type has a value in 0..3 |
| Enums.PeriodTypeFromValue | server/lib/nl/detection.py:116-121 | decoding succeeds exactly on 0..3 and inverts the value mapping |
| Enums.PeriodTypeRoundTrip | server/lib/nl/detection.py:116-121 | decoding a member's value gives back that member |
| Enums.TimeDeltaTypeValue | server/lib/nl/detection.py:124-127 | INCREASE and DECREASE have values in 0..1 |
| Enums.TimeDeltaTypeFromValue | server/lib/nl/detection.py:124-127 | decoding succeeds exactly on 0..1 and inverts the value mapping |
| Enums.TimeDeltaTypeRoundTrip | server/lib/nl/detection.py:124-127 | decoding a member's value gives back that member |
| Enums.ClassificationTypeValue | server/lib/nl/detection.py:226-238 | every classification type has a value in 0..11; 0 is exactly OTHER and 11 exactly UNKNOWN |
| Enums.ClassificationTypeFromValue | server/lib/nl/detection.py:226-238 | decoding succeeds exactly on 0..11 and inverts the value mapping |
| Enums.ClassificationTypeRoundTrip | server/lib/nl/detection.py:226-238 | decoding a member's value gives back that member |
| Enums.ClassificationTypeValueInjective | server/lib/nl/detection.py:226-238 | the twelve members map to twelve distinct integers |
| Schema.AttributesType | server/lib/nl/detection.py:130-223 | every payload shape belongs to a classification type other than OTHER and UNKNOWN |
| Schema.EveryClassifiedTypeHasPayload | server/lib/nl/detection.py:130-238 | each of the ten types other than OTHER and UNKNOWN has a payload shape of its own |
| Schema.UntypedClassifierHasNoAttributes | server/lib/nl/detection.py:253-257 | a well-formed classifier of type OTHER or UNKNOWN carries no attributes |
| Schema.PlaceDetectionDefaults | server/lib/nl/detection.py:31-39 | a place detection built without the optional flags has using_default_place and using_from_context false |
| Schema.DetectionDefaultQueryType | server/lib/nl/detection.py:260-268 | a detection built without query_type has query_type UNKNOWN |
| Resolver.RankedClassificationTypesShape | server/lib/nl/detection.py:241-250 | the ranked list has 7 pairwise-distinct entries and contains none of OTHER, UNKNOWN, TEMPORAL, CLUSTERING and OVERVIEW |
| Resolver.Priority | server/lib/nl/detection.py:241-250 | a type's priority is -1 or a position of the ranked list that holds that type |
| Resolver.PriorityIsPosition | server/lib/nl/detection.py:241-250 | a type has a priority iff it is in the ranked list, and the priority is its position there |
| Resolver.ScanRanked | server/lib/nl/detection.py:241-250 | the scan keeps a present entry at or after every present entry, or what it had when none is present |
| Resolver.Resolve | server/lib/nl/detection.py:241-268 | the result is UNKNOWN iff no ranked type is present; otherwise a present ranked type with priority at least that of every present ranked type |
| Resolver.ResolveCharacterization | server/lib/nl/detection.py:241-268 | Resolve returns r iff r is present, ranked and no later entry is present, or r is UNKNOWN and no ranked type is present |
| Resolver.ResolveDependsOnlyOnPresentTypes | server/lib/nl/detection.py:241-268 | two classifier lists with the same present types resolve alike |
| Resolver.ResolveOrderIndependent | server/lib/nl/detection.py:241-268 | reordering the classifier list does not change the result |
| Resolver.ResolveIgnoresAttributes | server/lib/nl/detection.py:253-268 | classifier lists that differ only in attribute payloads resolve alike |
| Resolver.LaterRankedTypeBeatsEarlier | server/lib/nl/detection.py:241-250 | when a later ranked entry is present, no earlier entry is the result |
| Resolver.RankingBeatsContainedInAndComparison | server/lib/nl/detection.py:241-250 | with RANKING present the result is none of CONTAINED_IN, COMPARISON and SIMPLE |
| Resolver.EventAlwaysWins | server/lib/nl/detection.py:241-250 | with EVENT present the result is EVENT |
| Resolver.SingleRankedTypeWins | server/lib/nl/detection.py:241-250 | when exactly one ranked type is present it is the result |
| Resolver.EmptyClassificationsResolveToUnknown | server/lib/nl/detection.py:241-268 | an empty classifier list resolves to UNKNOWN |
| Resolver.ScenarioSimpleOnly | server/lib/nl/detection.py:241-250 | a lone SIMPLE classifier resolves to SIMPLE |
| Resolver.ScenarioComparisonThenRanking | server/lib/nl/detection.py:241-250 | COMPARISON followed by RANKING resolves to RANKING |
| Resolver.ScenarioTimeDeltaEventCorrelation | server/lib/nl/detection.py:241-250 | TIME_DELTA, EVENT and CORRELATION together resolve to EVENT |
| Resolver.DefaultQueryTypeResolvedIffNoRankedType | server/lib/nl/detection.py:241-268 | a detection left at the UNKNOWN default agrees with the resolver iff none of its classifiers has a ranked type |

## Left out

- `sv_scores` (line 48) holds Python floats. They are kept as opaque 64-bit patterns (`Float64`), and nothing computes with them. Only the positional pairing with `sv_dcids` (comment at line 46) is stated, as the predicate `ScoresPaired`. The descending order by score is the producer's promise and is not modelled.
- Query strings, place names, dcids and `svs_to_sentences` come from external place and SV detection. They are plain `string`, `seq` and `map` fields with no behaviour.
- The classifiers that fill the `NLClassifier` list, and the response builders that read `query_type`, are not part of this model.
- Python's `ABC`/`@dataclass` machinery and runtime type checks are not modelled. Python does not stop a payload of the wrong shape from being attached, so `WellFormedClassifier` is a modelling aid and not a guarantee.
- No serializer exists in the file. Only the declared enum values and their decoders are modelled; nothing maps an unrecognised wire value to `UNKNOWN`.
- `Resolve` has no counterpart code in the file. It states the rule of the comment at line 241, so any other resolver elsewhere in the repository is not covered.
