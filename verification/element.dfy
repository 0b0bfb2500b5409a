/** The validated elements of element.rs: for each struct its record, its
    builder (one slot per field; an `Option<T>` field has an
    `Option<Option<T>>` slot), its validator and its `build`. Each `Build…`
    states when it succeeds, the exact message when it refuses, and how the
    result is assembled from the slots; each `…BuilderOf` sets every slot
    from a value, and the lemmas after it show `build` gives that value
    back. */
module Element {
  import opened Wrappers
  import opened Errors
  import opened Decimal
  import opened Builders
  import Definition

  /** `ListOfProfiles`, a list of profiles of the open enumeration. */
  type ListOfProfiles = seq<Definition.Profile>

  /** `XsAnyURI`, held as its text. */
  type AnyUri = string

  // ---------------------------------------------------------------------
  // UIntVWithID

  datatype UIntVWithID = UIntVWithID(
    base: seq<U32>,
    id: U32,
    profiles: Option<seq<ListOfProfiles>>,
    contentType: Option<Opaque>)

  datatype UIntVWithIDBuilder = UIntVWithIDBuilder(
    base: Option<seq<U32>>,
    id: Option<U32>,
    profiles: Option<Option<seq<ListOfProfiles>>>,
    contentType: Option<Option<Opaque>>)

  const EMPTY_UINTV_WITH_ID: UIntVWithIDBuilder := UIntVWithIDBuilder(None, None, None, None)

  const UINTV_WITH_ID_MESSAGE := "Must be set a unique unsigned integer identifier"

  function BuildUIntVWithID(b: UIntVWithIDBuilder): (r: Result<UIntVWithID, BuildError>)
    ensures r.Ok? <==> b.id.Some?
    ensures r.Err? ==> r.error == ValidationError(UINTV_WITH_ID_MESSAGE)
    ensures r.Ok? ==> r.value.id == b.id.value && r.value.base == Fill(b.base, [])
    ensures r.Ok? ==> r.value.profiles == Fill(b.profiles, None) && r.value.contentType == Fill(b.contentType, None)
  {
    Finish(Require(b.id, UINTV_WITH_ID_MESSAGE),
      UIntVWithID(Fill(b.base, []), Fill(b.id, 0), Fill(b.profiles, None), Fill(b.contentType, None)))
  }

  function UIntVWithIDBuilderOf(e: UIntVWithID): UIntVWithIDBuilder
  {
    UIntVWithIDBuilder(Some(e.base), Some(e.id), Optional(e.profiles), Optional(e.contentType))
  }

  lemma UIntVWithIDRebuild(e: UIntVWithID)
    ensures BuildUIntVWithID(UIntVWithIDBuilderOf(e)) == Ok(e)
  {
  }

  lemma UIntVWithIDExamples()
    ensures BuildUIntVWithID(EMPTY_UINTV_WITH_ID.(id := Some(1))).Ok?
    ensures BuildUIntVWithID(EMPTY_UINTV_WITH_ID).Err?
  {
  }

  // ---------------------------------------------------------------------
  // Descriptor and ContentProtection

  datatype Descriptor = Descriptor(schemeIdUri: AnyUri, value: Option<string>, id: Option<string>)

  datatype DescriptorBuilder = DescriptorBuilder(
    schemeIdUri: Option<AnyUri>,
    value: Option<Option<string>>,
    id: Option<Option<string>>)

  const EMPTY_DESCRIPTOR: DescriptorBuilder := DescriptorBuilder(None, None, None)

  /** `Descriptor::default()`. */
  const DEFAULT_DESCRIPTOR: Descriptor := Descriptor("", None, None)

  const DESCRIPTOR_MESSAGE := "Descriptor must be set @schemeIdUri"

  function BuildDescriptor(b: DescriptorBuilder): (r: Result<Descriptor, BuildError>)
    ensures r.Ok? <==> b.schemeIdUri.Some?
    ensures r.Err? ==> r.error == ValidationError(DESCRIPTOR_MESSAGE)
    ensures r.Ok? ==> r.value.schemeIdUri == b.schemeIdUri.value
    ensures r.Ok? ==> r.value.value == Fill(b.value, None) && r.value.id == Fill(b.id, None)
  {
    Finish(Require(b.schemeIdUri, DESCRIPTOR_MESSAGE),
      Descriptor(Fill(b.schemeIdUri, ""), Fill(b.value, None), Fill(b.id, None)))
  }

  function DescriptorBuilderOf(d: Descriptor): DescriptorBuilder
  {
    DescriptorBuilder(Some(d.schemeIdUri), Optional(d.value), Optional(d.id))
  }

  lemma DescriptorRebuild(d: Descriptor)
    ensures BuildDescriptor(DescriptorBuilderOf(d)) == Ok(d)
  {
  }

  lemma DescriptorExamples()
    ensures BuildDescriptor(EMPTY_DESCRIPTOR.(schemeIdUri := Some("https://example.com"))).Ok?
    ensures BuildDescriptor(EMPTY_DESCRIPTOR).Err?
  {
  }

  /** Table 33 of ISO/IEC 23009-1 allows only one of `@ref` and `@refId`;
      the struct has no validator, so nothing enforces that. */
  datatype ContentProtection = ContentProtection(
    descriptor: Descriptor,
    reference: Option<Opaque>,
    referenceId: Option<Opaque>,
    robustness: Option<Opaque>)

  datatype ContentProtectionBuilder = ContentProtectionBuilder(
    descriptor: Option<Descriptor>,
    reference: Option<Option<Opaque>>,
    referenceId: Option<Option<Opaque>>,
    robustness: Option<Option<Opaque>>)

  /** Without a validator `build` always succeeds; an unset descriptor is
      the default descriptor, whose scheme is empty. */
  function BuildContentProtection(b: ContentProtectionBuilder): (r: Result<ContentProtection, BuildError>)
    ensures r.Ok?
    ensures b.descriptor.Some? ==> r.value.descriptor == b.descriptor.value
    ensures b.descriptor.None? ==> r.value.descriptor == DEFAULT_DESCRIPTOR
    ensures r.value.reference == Fill(b.reference, None) && r.value.referenceId == Fill(b.referenceId, None)
    ensures r.value.robustness == Fill(b.robustness, None)
  {
    Finish(Pass, ContentProtection(Fill(b.descriptor, DEFAULT_DESCRIPTOR),
      Fill(b.reference, None), Fill(b.referenceId, None), Fill(b.robustness, None)))
  }

  function ContentProtectionBuilderOf(c: ContentProtection): ContentProtectionBuilder
  {
    ContentProtectionBuilder(Some(c.descriptor), Optional(c.reference), Optional(c.referenceId),
      Optional(c.robustness))
  }

  lemma ContentProtectionRebuild(c: ContentProtection)
    ensures BuildContentProtection(ContentProtectionBuilderOf(c)) == Ok(c)
  {
  }

  /** Both `@ref` and `@refId` set: still built. */
  lemma ContentProtectionKeepsBothReferences(d: Descriptor, x: Opaque, y: Opaque)
    ensures var r := BuildContentProtection(ContentProtectionBuilder(Some(d), Some(Some(x)), Some(Some(y)), None));
      r.Ok? && r.value.reference == Some(x) && r.value.referenceId == Some(y)
  {
  }

  // ---------------------------------------------------------------------
  // Metrics

  datatype MetricsRange = MetricsRange(startTime: Option<Opaque>, duration: Option<Opaque>)

  datatype Metrics = Metrics(metrics: string, range: Option<seq<MetricsRange>>, reporting: seq<Descriptor>)

  datatype MetricsBuilder = MetricsBuilder(
    metrics: Option<string>,
    range: Option<Option<seq<MetricsRange>>>,
    reporting: Option<seq<Descriptor>>)

  const EMPTY_METRICS: MetricsBuilder := MetricsBuilder(None, None, None)

  const METRICS_MESSAGE := "Metrics must be set @metrics attribute"
  const REPORTING_MESSAGE := "Metrics must be set Reporting element longer than 0"

  function ValidateMetrics(b: MetricsBuilder): (r: Outcome<string>)
    ensures r.Pass? <==> b.metrics.Some? && b.reporting.Some? && b.reporting.value != []
    ensures b.metrics.None? ==> r == Fail(METRICS_MESSAGE)
    ensures b.metrics.Some? && (b.reporting.None? || b.reporting.value == []) ==> r == Fail(REPORTING_MESSAGE)
  {
    if b.metrics.None? then Fail(METRICS_MESSAGE)
    else if !NonEmpty(b.reporting) then Fail(REPORTING_MESSAGE)
    else Pass
  }

  function BuildMetrics(b: MetricsBuilder): (r: Result<Metrics, BuildError>)
    ensures r.Ok? <==> b.metrics.Some? && b.reporting.Some? && |b.reporting.value| > 0
    ensures r.Err? ==> r.error.message in {METRICS_MESSAGE, REPORTING_MESSAGE}
    ensures r.Ok? ==> r.value.metrics == b.metrics.value && r.value.reporting == b.reporting.value
    ensures r.Ok? ==> r.value.range == Fill(b.range, None)
  {
    Finish(ValidateMetrics(b), Metrics(Fill(b.metrics, ""), Fill(b.range, None), Fill(b.reporting, [])))
  }

  function MetricsBuilderOf(m: Metrics): MetricsBuilder
  {
    MetricsBuilder(Some(m.metrics), Optional(m.range), Some(m.reporting))
  }

  /** Every `Metrics` with at least one reporting descriptor is rebuilt;
      one without is refused, so `build` cannot produce it. */
  lemma MetricsRebuild(m: Metrics)
    ensures BuildMetrics(MetricsBuilderOf(m)) == (if m.reporting == [] then Err(ValidationError(REPORTING_MESSAGE)) else Ok(m))
  {
  }

  lemma MetricsExamples(d: Descriptor)
    ensures BuildMetrics(EMPTY_METRICS.(metrics := Some("metric_key1,metric_key2"), reporting := Some([d]))).Ok?
    ensures BuildMetrics(EMPTY_METRICS).Err?
    ensures BuildMetrics(EMPTY_METRICS.(metrics := Some("metric_key1,metric_key2"))).Err?
    ensures BuildMetrics(EMPTY_METRICS.(reporting := Some([d]))).Err?
  {
  }

  // ---------------------------------------------------------------------
  // LeapSecondInformation

  datatype LeapSecondInformation = LeapSecondInformation(
    availabilityStartLeapOffset: I32,
    nextAvailabilityStartLeapOffset: Option<I32>,
    nextLeapChangeTime: Option<Opaque>)

  datatype LeapSecondInformationBuilder = LeapSecondInformationBuilder(
    availabilityStartLeapOffset: Option<I32>,
    nextAvailabilityStartLeapOffset: Option<Option<I32>>,
    nextLeapChangeTime: Option<Option<Opaque>>)

  const EMPTY_LEAP_SECOND: LeapSecondInformationBuilder := LeapSecondInformationBuilder(None, None, None)

  const LEAP_SECOND_MESSAGE := "LeapSecondInformation must be set @availabilityStartLeapOffset"

  function BuildLeapSecondInformation(b: LeapSecondInformationBuilder): (r: Result<LeapSecondInformation, BuildError>)
    ensures r.Ok? <==> b.availabilityStartLeapOffset.Some?
    ensures r.Err? ==> r.error == ValidationError(LEAP_SECOND_MESSAGE)
    ensures r.Ok? ==> r.value.availabilityStartLeapOffset == b.availabilityStartLeapOffset.value
    ensures r.Ok? ==> r.value.nextAvailabilityStartLeapOffset == Fill(b.nextAvailabilityStartLeapOffset, None)
    ensures r.Ok? ==> r.value.nextLeapChangeTime == Fill(b.nextLeapChangeTime, None)
  {
    Finish(Require(b.availabilityStartLeapOffset, LEAP_SECOND_MESSAGE),
      LeapSecondInformation(Fill(b.availabilityStartLeapOffset, 0),
        Fill(b.nextAvailabilityStartLeapOffset, None), Fill(b.nextLeapChangeTime, None)))
  }

  function LeapSecondInformationBuilderOf(e: LeapSecondInformation): LeapSecondInformationBuilder
  {
    LeapSecondInformationBuilder(Some(e.availabilityStartLeapOffset),
      Optional(e.nextAvailabilityStartLeapOffset), Optional(e.nextLeapChangeTime))
  }

  lemma LeapSecondInformationRebuild(e: LeapSecondInformation)
    ensures BuildLeapSecondInformation(LeapSecondInformationBuilderOf(e)) == Ok(e)
  {
  }

  /** A negative offset is a valid `i32` and builds. */
  lemma LeapSecondInformationExamples()
    ensures BuildLeapSecondInformation(EMPTY_LEAP_SECOND.(availabilityStartLeapOffset := Some(1))).Ok?
    ensures BuildLeapSecondInformation(EMPTY_LEAP_SECOND.(availabilityStartLeapOffset := Some(-1))).Ok?
    ensures BuildLeapSecondInformation(EMPTY_LEAP_SECOND).Err?
  {
  }

  // ---------------------------------------------------------------------
  // EventStream

  datatype Event = Event(
    presentationTime: Option<U64>,
    duration: Option<U64>,
    id: Option<U32>,
    contentEncoding: Option<Opaque>,
    messageData: Option<string>)

  datatype EventStream = EventStream(
    href: Option<string>,
    actuate: Option<Opaque>,
    schemeIdUri: AnyUri,
    value: Option<string>,
    timescale: Option<U32>,
    presentationTimeOffset: Option<U64>,
    events: Option<seq<Event>>)

  datatype EventStreamBuilder = EventStreamBuilder(
    href: Option<Option<string>>,
    actuate: Option<Option<Opaque>>,
    schemeIdUri: Option<AnyUri>,
    value: Option<Option<string>>,
    timescale: Option<Option<U32>>,
    presentationTimeOffset: Option<Option<U64>>,
    events: Option<Option<seq<Event>>>)

  const EMPTY_EVENT_STREAM: EventStreamBuilder := EventStreamBuilder(None, None, None, None, None, None, None)

  const EVENT_STREAM_MESSAGE := "EventStream must be set @schemeIdUri"

  function BuildEventStream(b: EventStreamBuilder): (r: Result<EventStream, BuildError>)
    ensures r.Ok? <==> b.schemeIdUri.Some?
    ensures r.Err? ==> r.error == ValidationError(EVENT_STREAM_MESSAGE)
    ensures r.Ok? ==> r.value.schemeIdUri == b.schemeIdUri.value && r.value.events == Fill(b.events, None)
    ensures r.Ok? ==> r.value.href == Fill(b.href, None) && r.value.actuate == Fill(b.actuate, None)
    ensures r.Ok? ==> r.value.value == Fill(b.value, None) && r.value.timescale == Fill(b.timescale, None)
    ensures r.Ok? ==> r.value.presentationTimeOffset == Fill(b.presentationTimeOffset, None)
  {
    Finish(Require(b.schemeIdUri, EVENT_STREAM_MESSAGE),
      EventStream(Fill(b.href, None), Fill(b.actuate, None), Fill(b.schemeIdUri, ""), Fill(b.value, None),
        Fill(b.timescale, None), Fill(b.presentationTimeOffset, None), Fill(b.events, None)))
  }

  function EventStreamBuilderOf(e: EventStream): EventStreamBuilder
  {
    EventStreamBuilder(Optional(e.href), Optional(e.actuate), Some(e.schemeIdUri), Optional(e.value),
      Optional(e.timescale), Optional(e.presentationTimeOffset), Optional(e.events))
  }

  lemma EventStreamRebuild(e: EventStream)
    ensures BuildEventStream(EventStreamBuilderOf(e)) == Ok(e)
  {
  }

  lemma EventStreamExamples()
    ensures BuildEventStream(EMPTY_EVENT_STREAM.(schemeIdUri := Some("https://example.com"))).Ok?
    ensures BuildEventStream(EMPTY_EVENT_STREAM).Err?
  {
  }

  // ---------------------------------------------------------------------
  // Switching and RandomAccess

  datatype Switching = Switching(interval: U32, kind: Option<Opaque>)

  datatype SwitchingBuilder = SwitchingBuilder(interval: Option<U32>, kind: Option<Option<Opaque>>)

  const EMPTY_SWITCHING: SwitchingBuilder := SwitchingBuilder(None, None)

  const SWITCHING_MESSAGE := "Switching must be set @interval"

  function BuildSwitching(b: SwitchingBuilder): (r: Result<Switching, BuildError>)
    ensures r.Ok? <==> b.interval.Some?
    ensures r.Err? ==> r.error == ValidationError(SWITCHING_MESSAGE)
    ensures r.Ok? ==> r.value.interval == b.interval.value && r.value.kind == Fill(b.kind, None)
  {
    Finish(Require(b.interval, SWITCHING_MESSAGE), Switching(Fill(b.interval, 0), Fill(b.kind, None)))
  }

  function SwitchingBuilderOf(e: Switching): SwitchingBuilder
  {
    SwitchingBuilder(Some(e.interval), Optional(e.kind))
  }

  lemma SwitchingRebuild(e: Switching)
    ensures BuildSwitching(SwitchingBuilderOf(e)) == Ok(e)
  {
  }

  lemma SwitchingExamples()
    ensures BuildSwitching(EMPTY_SWITCHING.(interval := Some(1))).Ok?
    ensures BuildSwitching(EMPTY_SWITCHING).Err?
  {
  }

  datatype RandomAccess = RandomAccess(
    interval: U32,
    kind: Option<Opaque>,
    minBufferTime: Option<Opaque>,
    bandwidth: Option<U32>)

  datatype RandomAccessBuilder = RandomAccessBuilder(
    interval: Option<U32>,
    kind: Option<Option<Opaque>>,
    minBufferTime: Option<Option<Opaque>>,
    bandwidth: Option<Option<U32>>)

  const EMPTY_RANDOM_ACCESS: RandomAccessBuilder := RandomAccessBuilder(None, None, None, None)

  const RANDOM_ACCESS_MESSAGE := "RandomAccess must be set @interval"

  function BuildRandomAccess(b: RandomAccessBuilder): (r: Result<RandomAccess, BuildError>)
    ensures r.Ok? <==> b.interval.Some?
    ensures r.Err? ==> r.error == ValidationError(RANDOM_ACCESS_MESSAGE)
    ensures r.Ok? ==> r.value.interval == b.interval.value && r.value.kind == Fill(b.kind, None)
    ensures r.Ok? ==> r.value.minBufferTime == Fill(b.minBufferTime, None) && r.value.bandwidth == Fill(b.bandwidth, None)
  {
    Finish(Require(b.interval, RANDOM_ACCESS_MESSAGE),
      RandomAccess(Fill(b.interval, 0), Fill(b.kind, None), Fill(b.minBufferTime, None), Fill(b.bandwidth, None)))
  }

  function RandomAccessBuilderOf(e: RandomAccess): RandomAccessBuilder
  {
    RandomAccessBuilder(Some(e.interval), Optional(e.kind), Optional(e.minBufferTime), Optional(e.bandwidth))
  }

  lemma RandomAccessRebuild(e: RandomAccess)
    ensures BuildRandomAccess(RandomAccessBuilderOf(e)) == Ok(e)
  {
  }

  lemma RandomAccessExamples()
    ensures BuildRandomAccess(EMPTY_RANDOM_ACCESS.(interval := Some(1))).Ok?
    ensures BuildRandomAccess(EMPTY_RANDOM_ACCESS).Err?
  {
  }

  // ---------------------------------------------------------------------
  // ProducerReferenceTime

  /** `@type` of a producer reference time: the three values ISO/IEC
      23009-1 defines for it. Only `Application` matters to the validator. */
  datatype ProducerReferenceTimeType = Encoder | Captured | Application

  datatype ProducerReferenceTime = ProducerReferenceTime(
    id: U32,
    inband: Option<bool>,
    kind: Option<ProducerReferenceTimeType>,
    applicationScheme: Option<string>,
    wallClockTime: string,
    presentationTime: U64,
    utcTiming: Option<Descriptor>)

  datatype ProducerReferenceTimeBuilder = ProducerReferenceTimeBuilder(
    id: Option<U32>,
    inband: Option<Option<bool>>,
    kind: Option<Option<ProducerReferenceTimeType>>,
    applicationScheme: Option<Option<string>>,
    wallClockTime: Option<string>,
    presentationTime: Option<U64>,
    utcTiming: Option<Option<Descriptor>>)

  const EMPTY_PRODUCER_REFERENCE_TIME: ProducerReferenceTimeBuilder :=
    ProducerReferenceTimeBuilder(None, None, None, None, None, None, None)

  const PRT_REQUIRED_MESSAGE := "ProducerReferenceTime must be set @id, @wallClockTime and @presentationTime"
  const PRT_SCHEME_MESSAGE := "If the @type is set other than application, this attribute shall not be present"

  /** The three required slots are all set. */
  predicate PrtRequiredSet(b: ProducerReferenceTimeBuilder)
  {
    b.id.Some? && b.wallClockTime.Some? && b.presentationTime.Some?
  }

  /** The validator of `ProducerReferenceTimeBuilder`: the required slots
      first; then an application-typed time needs its scheme. The message of the second
      refusal speaks of the converse rule, which is not checked. */
  function ValidateProducerReferenceTime(b: ProducerReferenceTimeBuilder): (r: Outcome<string>)
    ensures r.Pass? <==> PrtRequiredSet(b) && (b.kind == Some(Some(Application)) ==> b.applicationScheme.Some?)
    ensures !PrtRequiredSet(b) ==> r == Fail(PRT_REQUIRED_MESSAGE)
    ensures PrtRequiredSet(b) && r.Fail? ==> r == Fail(PRT_SCHEME_MESSAGE)
  {
    if b.id.None? || b.wallClockTime.None? || b.presentationTime.None? then Fail(PRT_REQUIRED_MESSAGE)
    else if b.kind == Some(Some(Application)) && b.applicationScheme.None? then Fail(PRT_SCHEME_MESSAGE)
    else Pass
  }

  function BuildProducerReferenceTime(b: ProducerReferenceTimeBuilder): (r: Result<ProducerReferenceTime, BuildError>)
    ensures r.Ok? <==> PrtRequiredSet(b) && (b.kind == Some(Some(Application)) ==> b.applicationScheme.Some?)
    ensures r.Err? ==> r.error.message in {PRT_REQUIRED_MESSAGE, PRT_SCHEME_MESSAGE}
    ensures r.Ok? ==> r.value.id == b.id.value && r.value.wallClockTime == b.wallClockTime.value
    ensures r.Ok? ==> r.value.presentationTime == b.presentationTime.value
    ensures r.Ok? ==> r.value.kind == Fill(b.kind, None) && r.value.applicationScheme == Fill(b.applicationScheme, None)
    ensures r.Ok? ==> r.value.inband == Fill(b.inband, None) && r.value.utcTiming == Fill(b.utcTiming, None)
  {
    Finish(ValidateProducerReferenceTime(b),
      ProducerReferenceTime(Fill(b.id, 0), Fill(b.inband, None), Fill(b.kind, None), Fill(b.applicationScheme, None),
        Fill(b.wallClockTime, ""), Fill(b.presentationTime, 0), Fill(b.utcTiming, None)))
  }

  function ProducerReferenceTimeBuilderOf(e: ProducerReferenceTime): ProducerReferenceTimeBuilder
  {
    ProducerReferenceTimeBuilder(Some(e.id), Optional(e.inband), Optional(e.kind), Optional(e.applicationScheme),
      Some(e.wallClockTime), Some(e.presentationTime), Optional(e.utcTiming))
  }

  /** A value is rebuilt exactly when it does not pair the application type
      with an absent scheme. */
  lemma ProducerReferenceTimeRebuild(e: ProducerReferenceTime)
    ensures BuildProducerReferenceTime(ProducerReferenceTimeBuilderOf(e)).Ok?
      <==> !(e.kind == Some(Application) && e.applicationScheme.None?)
    ensures BuildProducerReferenceTime(ProducerReferenceTimeBuilderOf(e)).Ok? ==>
      BuildProducerReferenceTime(ProducerReferenceTimeBuilderOf(e)) == Ok(e)
  {
    var b := ProducerReferenceTimeBuilderOf(e);
    assert b.kind == Some(Some(Application)) <==> e.kind == Some(Application);
  }

  /** The rule runs one way only: a scheme on a time of any other type, or
      of no type, is accepted. */
  lemma ProducerReferenceTimeSchemeOneWay(b: ProducerReferenceTimeBuilder, scheme: Option<string>)
    requires PrtRequiredSet(b)
    requires b.kind != Some(Some(Application))
    ensures BuildProducerReferenceTime(b.(applicationScheme := Some(scheme))).Ok?
    ensures BuildProducerReferenceTime(b.(applicationScheme := None)).Ok?
  {
  }

  lemma ProducerReferenceTimeExamples()
    ensures var b := EMPTY_PRODUCER_REFERENCE_TIME.(id := Some(1), wallClockTime := Some("12345"), presentationTime := Some(1));
      && BuildProducerReferenceTime(b).Ok?
      && BuildProducerReferenceTime(b.(kind := Some(Some(Application)), applicationScheme := Some(Some("https://example.com")))).Ok?
      && BuildProducerReferenceTime(b.(kind := Some(Some(Application)))) == Err(ValidationError(PRT_SCHEME_MESSAGE))
    ensures BuildProducerReferenceTime(EMPTY_PRODUCER_REFERENCE_TIME) == Err(ValidationError(PRT_REQUIRED_MESSAGE))
  {
  }

  // ---------------------------------------------------------------------
  // PopularityRate and ContentPopularityRate

  datatype PopularityRate = PopularityRate(popularityRate: U32, start: Option<U64>, repeatCount: Option<I32>)

  datatype PopularityRateBuilder = PopularityRateBuilder(
    popularityRate: Option<U32>,
    start: Option<Option<U64>>,
    repeatCount: Option<Option<I32>>)

  const EMPTY_POPULARITY_RATE: PopularityRateBuilder := PopularityRateBuilder(None, None, None)

  const RATE_RANGE_MESSAGE := "The value shall be in the range of 1 to 100."
  const RATE_MISSING_MESSAGE := "PopularityRate must be set @popularityRate"

  function ValidatePopularityRate(b: PopularityRateBuilder): (r: Outcome<string>)
    ensures r.Pass? <==> b.popularityRate.Some? && 1 <= b.popularityRate.value <= 100
    ensures b.popularityRate.None? ==> r == Fail(RATE_MISSING_MESSAGE)
    ensures b.popularityRate.Some? && r.Fail? ==> r == Fail(RATE_RANGE_MESSAGE)
  {
    match b.popularityRate
    case Some(rate) => if !(1 <= rate <= 100) then Fail(RATE_RANGE_MESSAGE) else Pass
    case None => Fail(RATE_MISSING_MESSAGE)
  }

  function BuildPopularityRate(b: PopularityRateBuilder): (r: Result<PopularityRate, BuildError>)
    ensures r.Ok? <==> b.popularityRate.Some? && 1 <= b.popularityRate.value <= 100
    ensures r.Err? ==> r.error.message in {RATE_RANGE_MESSAGE, RATE_MISSING_MESSAGE}
    ensures r.Ok? ==> r.value.popularityRate == b.popularityRate.value
    ensures r.Ok? ==> r.value.start == Fill(b.start, None) && r.value.repeatCount == Fill(b.repeatCount, None)
  {
    Finish(ValidatePopularityRate(b),
      PopularityRate(Fill(b.popularityRate, 0), Fill(b.start, None), Fill(b.repeatCount, None)))
  }

  function PopularityRateBuilderOf(e: PopularityRate): PopularityRateBuilder
  {
    PopularityRateBuilder(Some(e.popularityRate), Optional(e.start), Optional(e.repeatCount))
  }

  /** Every built rate lies in 1..=100, and every such rate is rebuilt. */
  lemma PopularityRateRebuild(e: PopularityRate)
    ensures BuildPopularityRate(PopularityRateBuilderOf(e)).Ok? <==> 1 <= e.popularityRate <= 100
    ensures 1 <= e.popularityRate <= 100 ==> BuildPopularityRate(PopularityRateBuilderOf(e)) == Ok(e)
  {
  }

  lemma PopularityRateExamples()
    ensures BuildPopularityRate(EMPTY_POPULARITY_RATE.(popularityRate := Some(1))).Ok?
    ensures BuildPopularityRate(EMPTY_POPULARITY_RATE.(popularityRate := Some(100))).Ok?
    ensures BuildPopularityRate(EMPTY_POPULARITY_RATE) == Err(ValidationError(RATE_MISSING_MESSAGE))
    ensures BuildPopularityRate(EMPTY_POPULARITY_RATE.(popularityRate := Some(0))) == Err(ValidationError(RATE_RANGE_MESSAGE))
    ensures BuildPopularityRate(EMPTY_POPULARITY_RATE.(popularityRate := Some(101))) == Err(ValidationError(RATE_RANGE_MESSAGE))
  {
  }

  datatype ContentPopularityRate = ContentPopularityRate(
    source: Opaque,
    sourceDescription: Option<string>,
    popularityRates: seq<PopularityRate>)

  datatype ContentPopularityRateBuilder = ContentPopularityRateBuilder(
    source: Option<Opaque>,
    sourceDescription: Option<Option<string>>,
    popularityRates: Option<seq<PopularityRate>>)

  const EMPTY_CONTENT_POPULARITY_RATE: ContentPopularityRateBuilder := ContentPopularityRateBuilder(None, None, None)

  const SOURCE_MESSAGE := "ContentPopularityRate must be set @source"
  const RATES_MESSAGE := "ContentPopularityRate must be set PR longer than 0"

  function ValidateContentPopularityRate(b: ContentPopularityRateBuilder): (r: Outcome<string>)
    ensures r.Pass? <==> b.source.Some? && b.popularityRates.Some? && b.popularityRates.value != []
    ensures b.source.None? ==> r == Fail(SOURCE_MESSAGE)
    ensures b.source.Some? && r.Fail? ==> r == Fail(RATES_MESSAGE)
  {
    if b.source.None? then Fail(SOURCE_MESSAGE)
    else if !NonEmpty(b.popularityRates) then Fail(RATES_MESSAGE)
    else Pass
  }

  function BuildContentPopularityRate(b: ContentPopularityRateBuilder): (r: Result<ContentPopularityRate, BuildError>)
    ensures r.Ok? <==> b.source.Some? && b.popularityRates.Some? && |b.popularityRates.value| > 0
    ensures r.Err? ==> r.error.message in {SOURCE_MESSAGE, RATES_MESSAGE}
    ensures r.Ok? ==> r.value.source == b.source.value && r.value.popularityRates == b.popularityRates.value
    ensures r.Ok? ==> r.value.sourceDescription == Fill(b.sourceDescription, None)
  {
    Finish(ValidateContentPopularityRate(b),
      ContentPopularityRate(Fill(b.source, OPAQUE_DEFAULT), Fill(b.sourceDescription, None), Fill(b.popularityRates, [])))
  }

  function ContentPopularityRateBuilderOf(e: ContentPopularityRate): ContentPopularityRateBuilder
  {
    ContentPopularityRateBuilder(Some(e.source), Optional(e.sourceDescription), Some(e.popularityRates))
  }

  lemma ContentPopularityRateRebuild(e: ContentPopularityRate)
    ensures BuildContentPopularityRate(ContentPopularityRateBuilderOf(e)).Ok? <==> e.popularityRates != []
    ensures e.popularityRates != [] ==> BuildContentPopularityRate(ContentPopularityRateBuilderOf(e)) == Ok(e)
  {
  }

  /** The rates of a content popularity rate need not themselves have been
      validated: the outer builder looks only at the list's length. */
  lemma ContentPopularityRateExamples(source: Opaque, rate: PopularityRate)
    ensures BuildContentPopularityRate(EMPTY_CONTENT_POPULARITY_RATE.(source := Some(source), popularityRates := Some([rate]))).Ok?
    ensures BuildContentPopularityRate(EMPTY_CONTENT_POPULARITY_RATE.(source := Some(source))).Err?
    ensures BuildContentPopularityRate(EMPTY_CONTENT_POPULARITY_RATE.(popularityRates := Some([rate]))).Err?
  {
  }

  // ---------------------------------------------------------------------
  // ModelPair

  datatype ModelPair = ModelPair(bufferTime: Opaque, bandwidth: U32)

  datatype ModelPairBuilder = ModelPairBuilder(bufferTime: Option<Opaque>, bandwidth: Option<U32>)

  const EMPTY_MODEL_PAIR: ModelPairBuilder := ModelPairBuilder(None, None)

  const MODEL_PAIR_MESSAGE := "ModelPair must be set @bufferTime and @bandwidth"

  function BuildModelPair(b: ModelPairBuilder): (r: Result<ModelPair, BuildError>)
    ensures r.Ok? <==> b.bufferTime.Some? && b.bandwidth.Some?
    ensures r.Err? ==> r.error == ValidationError(MODEL_PAIR_MESSAGE)
    ensures r.Ok? ==> r.value == ModelPair(b.bufferTime.value, b.bandwidth.value)
  {
    var check := if b.bufferTime.None? || b.bandwidth.None? then Fail(MODEL_PAIR_MESSAGE) else Pass;
    Finish(check, ModelPair(Fill(b.bufferTime, OPAQUE_DEFAULT), Fill(b.bandwidth, 0)))
  }

  function ModelPairBuilderOf(e: ModelPair): ModelPairBuilder
  {
    ModelPairBuilder(Some(e.bufferTime), Some(e.bandwidth))
  }

  lemma ModelPairRebuild(e: ModelPair)
    ensures BuildModelPair(ModelPairBuilderOf(e)) == Ok(e)
  {
  }

  lemma ModelPairExamples(five: Opaque)
    ensures BuildModelPair(EMPTY_MODEL_PAIR.(bufferTime := Some(five), bandwidth := Some(2_000_000))).Ok?
    ensures BuildModelPair(EMPTY_MODEL_PAIR).Err?
    ensures BuildModelPair(EMPTY_MODEL_PAIR.(bufferTime := Some(five))).Err?
    ensures BuildModelPair(EMPTY_MODEL_PAIR.(bandwidth := Some(2_000_000))).Err?
  {
  }

  // ---------------------------------------------------------------------
  // ServiceDescription

  /** Latency, playback rate and operating quality/bandwidth elements have
      no validator, so no build of theirs can fail; they are opaque here.
      Only the playback rate carries floating-point fields. */
  datatype ServiceDescription = ServiceDescription(
    id: U32,
    scope: Option<seq<Descriptor>>,
    latency: Option<seq<Opaque>>,
    playbackRate: Option<seq<Opaque>>,
    operatingQuality: Option<seq<Opaque>>,
    operatingBandwidth: Option<seq<Opaque>>)

  datatype ServiceDescriptionBuilder = ServiceDescriptionBuilder(
    id: Option<U32>,
    scope: Option<Option<seq<Descriptor>>>,
    latency: Option<Option<seq<Opaque>>>,
    playbackRate: Option<Option<seq<Opaque>>>,
    operatingQuality: Option<Option<seq<Opaque>>>,
    operatingBandwidth: Option<Option<seq<Opaque>>>)

  const EMPTY_SERVICE_DESCRIPTION: ServiceDescriptionBuilder :=
    ServiceDescriptionBuilder(None, None, None, None, None, None)

  const SERVICE_DESCRIPTION_MESSAGE := "ServiceDescription must be set @id"

  function BuildServiceDescription(b: ServiceDescriptionBuilder): (r: Result<ServiceDescription, BuildError>)
    ensures r.Ok? <==> b.id.Some?
    ensures r.Err? ==> r.error == ValidationError(SERVICE_DESCRIPTION_MESSAGE)
    ensures r.Ok? ==> r.value.id == b.id.value && r.value.scope == Fill(b.scope, None)
    ensures r.Ok? ==> r.value.latency == Fill(b.latency, None) && r.value.playbackRate == Fill(b.playbackRate, None)
    ensures r.Ok? ==> r.value.operatingQuality == Fill(b.operatingQuality, None)
    ensures r.Ok? ==> r.value.operatingBandwidth == Fill(b.operatingBandwidth, None)
  {
    Finish(Require(b.id, SERVICE_DESCRIPTION_MESSAGE),
      ServiceDescription(Fill(b.id, 0), Fill(b.scope, None), Fill(b.latency, None), Fill(b.playbackRate, None),
        Fill(b.operatingQuality, None), Fill(b.operatingBandwidth, None)))
  }

  function ServiceDescriptionBuilderOf(e: ServiceDescription): ServiceDescriptionBuilder
  {
    ServiceDescriptionBuilder(Some(e.id), Optional(e.scope), Optional(e.latency), Optional(e.playbackRate),
      Optional(e.operatingQuality), Optional(e.operatingBandwidth))
  }

  lemma ServiceDescriptionRebuild(e: ServiceDescription)
    ensures BuildServiceDescription(ServiceDescriptionBuilderOf(e)) == Ok(e)
  {
  }

  lemma ServiceDescriptionExamples()
    ensures BuildServiceDescription(EMPTY_SERVICE_DESCRIPTION.(id := Some(1))).Ok?
    ensures BuildServiceDescription(EMPTY_SERVICE_DESCRIPTION).Err?
  {
  }

  // ---------------------------------------------------------------------
  // Subset

  datatype Subset = Subset(contains: seq<U32>, id: Option<string>)

  datatype SubsetBuilder = SubsetBuilder(contains: Option<seq<U32>>, id: Option<Option<string>>)

  const EMPTY_SUBSET: SubsetBuilder := SubsetBuilder(None, None)

  const SUBSET_MESSAGE := "Subset must be set @contains"

  /** Only whether `@contains` was set is checked: an empty vector is
      accepted. */
  function BuildSubset(b: SubsetBuilder): (r: Result<Subset, BuildError>)
    ensures r.Ok? <==> b.contains.Some?
    ensures r.Err? ==> r.error == ValidationError(SUBSET_MESSAGE)
    ensures r.Ok? ==> r.value.contains == b.contains.value && r.value.id == Fill(b.id, None)
  {
    Finish(Require(b.contains, SUBSET_MESSAGE), Subset(Fill(b.contains, []), Fill(b.id, None)))
  }

  function SubsetBuilderOf(e: Subset): SubsetBuilder
  {
    SubsetBuilder(Some(e.contains), Optional(e.id))
  }

  lemma SubsetRebuild(e: Subset)
    ensures BuildSubset(SubsetBuilderOf(e)) == Ok(e)
  {
  }

  lemma SubsetExamples()
    ensures BuildSubset(EMPTY_SUBSET.(contains := Some([1, 2, 3]))).Ok?
    ensures BuildSubset(EMPTY_SUBSET.(contains := Some([]))).Ok?
    ensures BuildSubset(EMPTY_SUBSET).Err?
  {
  }

  // ---------------------------------------------------------------------
  // Preselection

  /** The identifying attributes of a preselection; its common attributes
      and child elements (profiles, codecs, descriptors, ...) are one opaque
      slot here, since no validator reads them. */
  datatype Preselection = Preselection(
    id: Option<Opaque>,
    preselectionComponents: seq<string>,
    lang: Option<Opaque>,
    order: Option<Opaque>,
    common: Opaque)

  datatype PreselectionBuilder = PreselectionBuilder(
    id: Option<Option<Opaque>>,
    preselectionComponents: Option<seq<string>>,
    lang: Option<Option<Opaque>>,
    order: Option<Option<Opaque>>,
    common: Option<Opaque>)

  const EMPTY_PRESELECTION: PreselectionBuilder := PreselectionBuilder(None, None, None, None, None)

  const PRESELECTION_MESSAGE := "Preselection must be set @preselectionComponents"

  function BuildPreselection(b: PreselectionBuilder): (r: Result<Preselection, BuildError>)
    ensures r.Ok? <==> b.preselectionComponents.Some?
    ensures r.Err? ==> r.error == ValidationError(PRESELECTION_MESSAGE)
    ensures r.Ok? ==> r.value.preselectionComponents == b.preselectionComponents.value
    ensures r.Ok? ==> r.value.id == Fill(b.id, None) && r.value.lang == Fill(b.lang, None)
    ensures r.Ok? ==> r.value.order == Fill(b.order, None) && r.value.common == Fill(b.common, OPAQUE_DEFAULT)
  {
    Finish(Require(b.preselectionComponents, PRESELECTION_MESSAGE),
      Preselection(Fill(b.id, None), Fill(b.preselectionComponents, []), Fill(b.lang, None),
        Fill(b.order, None), Fill(b.common, OPAQUE_DEFAULT)))
  }

  function PreselectionBuilderOf(e: Preselection): PreselectionBuilder
  {
    PreselectionBuilder(Optional(e.id), Some(e.preselectionComponents), Optional(e.lang), Optional(e.order), Some(e.common))
  }

  lemma PreselectionRebuild(e: Preselection)
    ensures BuildPreselection(PreselectionBuilderOf(e)) == Ok(e)
  {
  }

  lemma PreselectionExamples()
    ensures BuildPreselection(EMPTY_PRESELECTION.(preselectionComponents := Some(["id_1", "id_2"]))).Ok?
    ensures BuildPreselection(EMPTY_PRESELECTION).Err?
  {
  }

  // ---------------------------------------------------------------------
  // FCS and FailoverContent

  datatype Fcs = Fcs(startTime: U64, duration: Option<U64>)

  datatype FcsBuilder = FcsBuilder(startTime: Option<U64>, duration: Option<Option<U64>>)

  const EMPTY_FCS: FcsBuilder := FcsBuilder(None, None)

  const FCS_MESSAGE := "FCS must be set @t"

  function BuildFcs(b: FcsBuilder): (r: Result<Fcs, BuildError>)
    ensures r.Ok? <==> b.startTime.Some?
    ensures r.Err? ==> r.error == ValidationError(FCS_MESSAGE)
    ensures r.Ok? ==> r.value.startTime == b.startTime.value && r.value.duration == Fill(b.duration, None)
  {
    Finish(Require(b.startTime, FCS_MESSAGE), Fcs(Fill(b.startTime, 0), Fill(b.duration, None)))
  }

  function FcsBuilderOf(e: Fcs): FcsBuilder
  {
    FcsBuilder(Some(e.startTime), Optional(e.duration))
  }

  lemma FcsRebuild(e: Fcs)
    ensures BuildFcs(FcsBuilderOf(e)) == Ok(e)
  {
  }

  lemma FcsExamples()
    ensures BuildFcs(EMPTY_FCS.(startTime := Some(1))).Ok?
    ensures BuildFcs(EMPTY_FCS.(startTime := Some(0))).Ok?
    ensures BuildFcs(EMPTY_FCS).Err?
  {
  }

  datatype FailoverContent = FailoverContent(valid: Option<bool>, fcsList: seq<Fcs>)

  datatype FailoverContentBuilder = FailoverContentBuilder(valid: Option<Option<bool>>, fcsList: Option<seq<Fcs>>)

  const EMPTY_FAILOVER_CONTENT: FailoverContentBuilder := FailoverContentBuilder(None, None)

  const FAILOVER_MESSAGE := "FailoverContent must be set FCS longer than 0"

  function BuildFailoverContent(b: FailoverContentBuilder): (r: Result<FailoverContent, BuildError>)
    ensures r.Ok? <==> b.fcsList.Some? && |b.fcsList.value| > 0
    ensures r.Err? ==> r.error == ValidationError(FAILOVER_MESSAGE)
    ensures r.Ok? ==> r.value.fcsList == b.fcsList.value && r.value.valid == Fill(b.valid, None)
  {
    var check := if !NonEmpty(b.fcsList) then Fail(FAILOVER_MESSAGE) else Pass;
    Finish(check, FailoverContent(Fill(b.valid, None), Fill(b.fcsList, [])))
  }

  function FailoverContentBuilderOf(e: FailoverContent): FailoverContentBuilder
  {
    FailoverContentBuilder(Optional(e.valid), Some(e.fcsList))
  }

  lemma FailoverContentRebuild(e: FailoverContent)
    ensures BuildFailoverContent(FailoverContentBuilderOf(e)).Ok? <==> e.fcsList != []
    ensures e.fcsList != [] ==> BuildFailoverContent(FailoverContentBuilderOf(e)) == Ok(e)
  {
  }

  lemma FailoverContentExamples()
    ensures var fcs := BuildFcs(EMPTY_FCS.(startTime := Some(1)));
      fcs.Ok? && BuildFailoverContent(EMPTY_FAILOVER_CONTENT.(fcsList := Some([fcs.value]))).Ok?
    ensures BuildFailoverContent(EMPTY_FAILOVER_CONTENT).Err?
    ensures BuildFailoverContent(EMPTY_FAILOVER_CONTENT.(fcsList := Some([]))).Err?
  {
  }
}
