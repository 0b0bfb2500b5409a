/** The segment addressing elements of element/segment.rs: `SegmentBase`,
    `SegmentList` and `SegmentTemplate`, whose builders have no validator;
    the timeline entry `S`, whose duration must be positive; and
    `SegmentTimeline`, whose builder appends entries one at a time or from a
    list. */
module Segments {
  import opened Wrappers
  import opened Errors
  import opened Decimal
  import opened Builders
  import Element

  // ---------------------------------------------------------------------
  // S

  /** `@r` is an `XsInteger`, an unbounded signed integer. */
  datatype Segment = Segment(
    startTime: Option<U64>,
    number: Option<U64>,
    duration: U64,
    segmentCount: Option<U64>,
    repeatCount: Option<int>)

  datatype SegmentBuilder = SegmentBuilder(
    startTime: Option<Option<U64>>,
    number: Option<Option<U64>>,
    duration: Option<U64>,
    segmentCount: Option<Option<U64>>,
    repeatCount: Option<Option<int>>)

  const EMPTY_SEGMENT: SegmentBuilder := SegmentBuilder(None, None, None, None, None)

  const SEGMENT_MESSAGE := "Segment duration must be set longer than 0"

  /** Refuses an unset duration and a duration of 0; nothing else is
      looked at. */
  function BuildSegment(b: SegmentBuilder): (r: Result<Segment, BuildError>)
    ensures r.Ok? <==> b.duration.Some? && b.duration.value >= 1
    ensures r.Err? ==> r.error == ValidationError(SEGMENT_MESSAGE)
    ensures r.Ok? ==> r.value.duration == b.duration.value && r.value.duration >= 1
    ensures r.Ok? ==> r.value.startTime == Fill(b.startTime, None) && r.value.number == Fill(b.number, None)
    ensures r.Ok? ==> r.value.segmentCount == Fill(b.segmentCount, None) && r.value.repeatCount == Fill(b.repeatCount, None)
  {
    var check := if b.duration == None || b.duration == Some(0) then Fail(SEGMENT_MESSAGE) else Pass;
    Finish(check, Segment(Fill(b.startTime, None), Fill(b.number, None), Fill(b.duration, 0),
      Fill(b.segmentCount, None), Fill(b.repeatCount, None)))
  }

  function SegmentBuilderOf(e: Segment): SegmentBuilder
  {
    SegmentBuilder(Optional(e.startTime), Optional(e.number), Some(e.duration),
      Optional(e.segmentCount), Optional(e.repeatCount))
  }

  lemma SegmentRebuild(e: Segment)
    ensures BuildSegment(SegmentBuilderOf(e)).Ok? <==> e.duration != 0
    ensures e.duration != 0 ==> BuildSegment(SegmentBuilderOf(e)) == Ok(e)
  {
  }

  /** `@t`, `@n`, `@k` and `@r` never make a build fail, whatever their
      values, negative repeat counts included. */
  lemma SegmentOtherSlotsFree(b: SegmentBuilder, t: U64, n: U64, k: U64, r: int)
    requires b.duration.Some? && b.duration.value >= 1
    ensures BuildSegment(b.(startTime := Some(Some(t)), number := Some(Some(n)),
      segmentCount := Some(Some(k)), repeatCount := Some(Some(r)))).Ok?
  {
  }

  lemma SegmentExamples()
    ensures BuildSegment(EMPTY_SEGMENT.(duration := Some(1))).Ok?
    ensures BuildSegment(EMPTY_SEGMENT) == Err(ValidationError(SEGMENT_MESSAGE))
    ensures BuildSegment(EMPTY_SEGMENT.(duration := Some(0))) == Err(ValidationError(SEGMENT_MESSAGE))
  {
  }

  // ---------------------------------------------------------------------
  // SegmentTimeline

  datatype SegmentTimeline = SegmentTimeline(segments: seq<Segment>)

  /** The `segments` slot has custom setters only. */
  datatype SegmentTimelineBuilder = SegmentTimelineBuilder(segments: Option<seq<Segment>>)

  const EMPTY_SEGMENT_TIMELINE: SegmentTimelineBuilder := SegmentTimelineBuilder(None)

  /** The entries collected so far. */
  function Collected(b: SegmentTimelineBuilder): seq<Segment>
  {
    Fill(b.segments, [])
  }

  /** `segment(s)`: appends `s` after the entries collected so far. */
  function AddSegment(b: SegmentTimelineBuilder, s: Segment): (r: SegmentTimelineBuilder)
    ensures r.segments.Some?
    ensures |Collected(r)| == |Collected(b)| + 1
    ensures Collected(r)[..|Collected(b)|] == Collected(b) && Collected(r)[|Collected(b)|] == s
  {
    SegmentTimelineBuilder(Some(Collected(b) + [s]))
  }

  /** `segments(xs)`: `extend`, one push per entry of `xs`, in order. */
  method AddSegments(b: SegmentTimelineBuilder, xs: seq<Segment>) returns (r: SegmentTimelineBuilder)
    ensures r.segments.Some?
    ensures Collected(r) == Collected(b) + xs
  {
    r := SegmentTimelineBuilder(Some(Collected(b)));
    var i := 0;
    while i < |xs|
      invariant 0 <= i <= |xs|
      invariant r.segments.Some?
      invariant Collected(r) == Collected(b) + xs[..i]
    {
      r := AddSegment(r, xs[i]);
      assert xs[..i + 1] == xs[..i] + [xs[i]];
      i := i + 1;
    }
    assert xs[..i] == xs;
  }

  /** Without a validator the timeline always builds, with the entries
      collected so far, or none. */
  function BuildSegmentTimeline(b: SegmentTimelineBuilder): (r: Result<SegmentTimeline, BuildError>)
    ensures r.Ok? && r.value.segments == Collected(b)
    ensures b.segments.None? ==> r.value.segments == []
  {
    Finish(Pass, SegmentTimeline(Collected(b)))
  }

  /** `segments([s1, s2]).segment(s3)` builds the timeline `[s1, s2, s3]`. */
  method TimelineOfThree(s1: Segment, s2: Segment, s3: Segment) returns (t: Result<SegmentTimeline, BuildError>)
    ensures t == Ok(SegmentTimeline([s1, s2, s3]))
  {
    var b := AddSegments(EMPTY_SEGMENT_TIMELINE, [s1, s2]);
    b := AddSegment(b, s3);
    assert Collected(b) == [s1, s2, s3];
    t := BuildSegmentTimeline(b);
  }

  /** The builder of a given timeline: its entries added as one list. */
  method SegmentTimelineRebuild(e: SegmentTimeline) returns (t: Result<SegmentTimeline, BuildError>)
    ensures t == Ok(e)
  {
    var b := AddSegments(EMPTY_SEGMENT_TIMELINE, e.segments);
    assert Collected(b) == [] + e.segments == e.segments;
    t := BuildSegmentTimeline(b);
  }

  // ---------------------------------------------------------------------
  // SegmentBase, SegmentList and SegmentTemplate

  /** `Initialization`, `RepresentationIndex`, `@indexRange` and
      `@timeShiftBufferDepth` are opaque; `@eptDelta` and `@pdDelta` are
      `XsInteger`s. The `f64` `@availabilityTimeOffset` is left out. */
  datatype SegmentBase = SegmentBase(
    timescale: Option<U32>,
    presentationTimeOffset: Option<U64>,
    eptDelta: Option<int>,
    pdDelta: Option<int>,
    presentationDuration: Option<U64>,
    timeShiftBufferDepth: Option<Opaque>,
    indexRange: Option<Opaque>,
    indexRangeExact: Option<bool>,
    availabilityTimeComplete: Option<bool>,
    initialization: Option<Opaque>,
    representationIndex: Option<Opaque>,
    failoverContent: Option<Element.FailoverContent>)

  datatype SegmentBaseBuilder = SegmentBaseBuilder(
    timescale: Option<Option<U32>>,
    presentationTimeOffset: Option<Option<U64>>,
    eptDelta: Option<Option<int>>,
    pdDelta: Option<Option<int>>,
    presentationDuration: Option<Option<U64>>,
    timeShiftBufferDepth: Option<Option<Opaque>>,
    indexRange: Option<Option<Opaque>>,
    indexRangeExact: Option<Option<bool>>,
    availabilityTimeComplete: Option<Option<bool>>,
    initialization: Option<Option<Opaque>>,
    representationIndex: Option<Option<Opaque>>,
    failoverContent: Option<Option<Element.FailoverContent>>)

  /** Without a validator every builder builds, each slot read back or
      filled with its default. */
  function BuildSegmentBase(b: SegmentBaseBuilder): (r: Result<SegmentBase, BuildError>)
    ensures r.Ok?
    ensures r.value.timescale == Fill(b.timescale, None)
    ensures r.value.presentationTimeOffset == Fill(b.presentationTimeOffset, None)
    ensures r.value.eptDelta == Fill(b.eptDelta, None) && r.value.pdDelta == Fill(b.pdDelta, None)
    ensures r.value.presentationDuration == Fill(b.presentationDuration, None)
    ensures r.value.timeShiftBufferDepth == Fill(b.timeShiftBufferDepth, None)
    ensures r.value.indexRange == Fill(b.indexRange, None) && r.value.indexRangeExact == Fill(b.indexRangeExact, None)
    ensures r.value.availabilityTimeComplete == Fill(b.availabilityTimeComplete, None)
    ensures r.value.initialization == Fill(b.initialization, None)
    ensures r.value.representationIndex == Fill(b.representationIndex, None)
    ensures r.value.failoverContent == Fill(b.failoverContent, None)
  {
    Finish(Pass, SegmentBase(Fill(b.timescale, None), Fill(b.presentationTimeOffset, None),
      Fill(b.eptDelta, None), Fill(b.pdDelta, None), Fill(b.presentationDuration, None),
      Fill(b.timeShiftBufferDepth, None), Fill(b.indexRange, None), Fill(b.indexRangeExact, None),
      Fill(b.availabilityTimeComplete, None), Fill(b.initialization, None),
      Fill(b.representationIndex, None), Fill(b.failoverContent, None)))
  }

  function SegmentBaseBuilderOf(e: SegmentBase): SegmentBaseBuilder
  {
    SegmentBaseBuilder(Optional(e.timescale), Optional(e.presentationTimeOffset), Optional(e.eptDelta),
      Optional(e.pdDelta), Optional(e.presentationDuration), Optional(e.timeShiftBufferDepth),
      Optional(e.indexRange), Optional(e.indexRangeExact), Optional(e.availabilityTimeComplete),
      Optional(e.initialization), Optional(e.representationIndex), Optional(e.failoverContent))
  }

  lemma SegmentBaseRebuild(e: SegmentBase)
    ensures BuildSegmentBase(SegmentBaseBuilderOf(e)) == Ok(e)
  {
  }

  /** The entries of `SegmentURL` are opaque, and so are the `Url`
      elements, `@indexRange` and `@timeShiftBufferDepth`. The `f64`
      `@availabilityTimeOffset` is left out. */
  datatype SegmentList = SegmentList(
    href: Option<string>,
    actuate: Option<string>,
    duration: Option<U32>,
    startNumber: Option<U32>,
    endNumber: Option<U32>,
    timescale: Option<U32>,
    presentationTimeOffset: Option<U64>,
    eptDelta: Option<int>,
    pdDelta: Option<int>,
    presentationDuration: Option<U64>,
    timeShiftBufferDepth: Option<Opaque>,
    indexRange: Option<Opaque>,
    indexRangeExact: Option<bool>,
    availabilityTimeComplete: Option<bool>,
    initialization: Option<Opaque>,
    representationIndex: Option<Opaque>,
    failoverContent: Option<Element.FailoverContent>,
    segmentTimeline: Option<SegmentTimeline>,
    bitstreamSwitching: Option<Opaque>,
    segmentUrl: seq<Opaque>)

  datatype SegmentListBuilder = SegmentListBuilder(
    href: Option<Option<string>>,
    actuate: Option<Option<string>>,
    duration: Option<Option<U32>>,
    startNumber: Option<Option<U32>>,
    endNumber: Option<Option<U32>>,
    timescale: Option<Option<U32>>,
    presentationTimeOffset: Option<Option<U64>>,
    eptDelta: Option<Option<int>>,
    pdDelta: Option<Option<int>>,
    presentationDuration: Option<Option<U64>>,
    timeShiftBufferDepth: Option<Option<Opaque>>,
    indexRange: Option<Option<Opaque>>,
    indexRangeExact: Option<Option<bool>>,
    availabilityTimeComplete: Option<Option<bool>>,
    initialization: Option<Option<Opaque>>,
    representationIndex: Option<Option<Opaque>>,
    failoverContent: Option<Option<Element.FailoverContent>>,
    segmentTimeline: Option<Option<SegmentTimeline>>,
    bitstreamSwitching: Option<Option<Opaque>>,
    segmentUrl: Option<seq<Opaque>>)

  /** Without a validator every builder builds; an unset `SegmentURL` list
      is empty. */
  function BuildSegmentList(b: SegmentListBuilder): (r: Result<SegmentList, BuildError>)
    ensures r.Ok?
    ensures r.value.href == Fill(b.href, None) && r.value.actuate == Fill(b.actuate, None)
    ensures r.value.duration == Fill(b.duration, None) && r.value.timescale == Fill(b.timescale, None)
    ensures r.value.startNumber == Fill(b.startNumber, None) && r.value.endNumber == Fill(b.endNumber, None)
    ensures r.value.presentationTimeOffset == Fill(b.presentationTimeOffset, None)
    ensures r.value.eptDelta == Fill(b.eptDelta, None) && r.value.pdDelta == Fill(b.pdDelta, None)
    ensures r.value.presentationDuration == Fill(b.presentationDuration, None)
    ensures r.value.timeShiftBufferDepth == Fill(b.timeShiftBufferDepth, None)
    ensures r.value.indexRange == Fill(b.indexRange, None) && r.value.indexRangeExact == Fill(b.indexRangeExact, None)
    ensures r.value.availabilityTimeComplete == Fill(b.availabilityTimeComplete, None)
    ensures r.value.initialization == Fill(b.initialization, None)
    ensures r.value.representationIndex == Fill(b.representationIndex, None)
    ensures r.value.failoverContent == Fill(b.failoverContent, None)
    ensures r.value.segmentTimeline == Fill(b.segmentTimeline, None)
    ensures r.value.bitstreamSwitching == Fill(b.bitstreamSwitching, None)
    ensures r.value.segmentUrl == Fill(b.segmentUrl, [])
  {
    Finish(Pass, SegmentList(Fill(b.href, None), Fill(b.actuate, None), Fill(b.duration, None),
      Fill(b.startNumber, None), Fill(b.endNumber, None), Fill(b.timescale, None),
      Fill(b.presentationTimeOffset, None), Fill(b.eptDelta, None), Fill(b.pdDelta, None),
      Fill(b.presentationDuration, None), Fill(b.timeShiftBufferDepth, None), Fill(b.indexRange, None),
      Fill(b.indexRangeExact, None), Fill(b.availabilityTimeComplete, None), Fill(b.initialization, None),
      Fill(b.representationIndex, None), Fill(b.failoverContent, None), Fill(b.segmentTimeline, None),
      Fill(b.bitstreamSwitching, None), Fill(b.segmentUrl, [])))
  }

  function SegmentListBuilderOf(e: SegmentList): SegmentListBuilder
  {
    SegmentListBuilder(Optional(e.href), Optional(e.actuate), Optional(e.duration), Optional(e.startNumber),
      Optional(e.endNumber), Optional(e.timescale), Optional(e.presentationTimeOffset), Optional(e.eptDelta),
      Optional(e.pdDelta), Optional(e.presentationDuration), Optional(e.timeShiftBufferDepth),
      Optional(e.indexRange), Optional(e.indexRangeExact), Optional(e.availabilityTimeComplete),
      Optional(e.initialization), Optional(e.representationIndex), Optional(e.failoverContent),
      Optional(e.segmentTimeline), Optional(e.bitstreamSwitching), Some(e.segmentUrl))
  }

  lemma SegmentListRebuild(e: SegmentList)
    ensures BuildSegmentList(SegmentListBuilderOf(e)) == Ok(e)
  {
  }

  /** The `Url` elements, `@indexRange` and `@timeShiftBufferDepth` are
      opaque. The `f64` `@availabilityTimeOffset` is left out. */
  datatype SegmentTemplate = SegmentTemplate(
    duration: Option<U32>,
    startNumber: Option<U32>,
    endNumber: Option<U32>,
    timescale: Option<U32>,
    presentationTimeOffset: Option<U64>,
    eptDelta: Option<int>,
    pdDelta: Option<int>,
    presentationDuration: Option<U64>,
    timeShiftBufferDepth: Option<Opaque>,
    indexRange: Option<Opaque>,
    indexRangeExact: Option<bool>,
    availabilityTimeComplete: Option<bool>,
    initializationElement: Option<Opaque>,
    representationIndex: Option<Opaque>,
    failoverContent: Option<Element.FailoverContent>,
    segmentTimeline: Option<SegmentTimeline>,
    bitstreamSwitchingElement: Option<Opaque>,
    media: Option<string>,
    index: Option<string>,
    initialization: Option<string>,
    bitstreamSwitching: Option<string>)

  datatype SegmentTemplateBuilder = SegmentTemplateBuilder(
    duration: Option<Option<U32>>,
    startNumber: Option<Option<U32>>,
    endNumber: Option<Option<U32>>,
    timescale: Option<Option<U32>>,
    presentationTimeOffset: Option<Option<U64>>,
    eptDelta: Option<Option<int>>,
    pdDelta: Option<Option<int>>,
    presentationDuration: Option<Option<U64>>,
    timeShiftBufferDepth: Option<Option<Opaque>>,
    indexRange: Option<Option<Opaque>>,
    indexRangeExact: Option<Option<bool>>,
    availabilityTimeComplete: Option<Option<bool>>,
    initializationElement: Option<Option<Opaque>>,
    representationIndex: Option<Option<Opaque>>,
    failoverContent: Option<Option<Element.FailoverContent>>,
    segmentTimeline: Option<Option<SegmentTimeline>>,
    bitstreamSwitchingElement: Option<Option<Opaque>>,
    media: Option<Option<string>>,
    index: Option<Option<string>>,
    initialization: Option<Option<string>>,
    bitstreamSwitching: Option<Option<string>>)

  /** A template is accepted with any combination of `@duration` and a
      timeline, and with `@startNumber` above `@endNumber`. */
  function BuildSegmentTemplate(b: SegmentTemplateBuilder): (r: Result<SegmentTemplate, BuildError>)
    ensures r.Ok?
    ensures r.value.duration == Fill(b.duration, None) && r.value.timescale == Fill(b.timescale, None)
    ensures r.value.startNumber == Fill(b.startNumber, None) && r.value.endNumber == Fill(b.endNumber, None)
    ensures r.value.presentationTimeOffset == Fill(b.presentationTimeOffset, None)
    ensures r.value.eptDelta == Fill(b.eptDelta, None) && r.value.pdDelta == Fill(b.pdDelta, None)
    ensures r.value.presentationDuration == Fill(b.presentationDuration, None)
    ensures r.value.timeShiftBufferDepth == Fill(b.timeShiftBufferDepth, None)
    ensures r.value.indexRange == Fill(b.indexRange, None) && r.value.indexRangeExact == Fill(b.indexRangeExact, None)
    ensures r.value.availabilityTimeComplete == Fill(b.availabilityTimeComplete, None)
    ensures r.value.initializationElement == Fill(b.initializationElement, None)
    ensures r.value.representationIndex == Fill(b.representationIndex, None)
    ensures r.value.failoverContent == Fill(b.failoverContent, None)
    ensures r.value.segmentTimeline == Fill(b.segmentTimeline, None)
    ensures r.value.bitstreamSwitchingElement == Fill(b.bitstreamSwitchingElement, None)
    ensures r.value.media == Fill(b.media, None) && r.value.index == Fill(b.index, None)
    ensures r.value.initialization == Fill(b.initialization, None)
    ensures r.value.bitstreamSwitching == Fill(b.bitstreamSwitching, None)
  {
    Finish(Pass, SegmentTemplate(Fill(b.duration, None), Fill(b.startNumber, None), Fill(b.endNumber, None),
      Fill(b.timescale, None), Fill(b.presentationTimeOffset, None), Fill(b.eptDelta, None),
      Fill(b.pdDelta, None), Fill(b.presentationDuration, None), Fill(b.timeShiftBufferDepth, None),
      Fill(b.indexRange, None), Fill(b.indexRangeExact, None), Fill(b.availabilityTimeComplete, None),
      Fill(b.initializationElement, None), Fill(b.representationIndex, None), Fill(b.failoverContent, None),
      Fill(b.segmentTimeline, None), Fill(b.bitstreamSwitchingElement, None), Fill(b.media, None),
      Fill(b.index, None), Fill(b.initialization, None), Fill(b.bitstreamSwitching, None)))
  }

  function SegmentTemplateBuilderOf(e: SegmentTemplate): SegmentTemplateBuilder
  {
    SegmentTemplateBuilder(Optional(e.duration), Optional(e.startNumber), Optional(e.endNumber),
      Optional(e.timescale), Optional(e.presentationTimeOffset), Optional(e.eptDelta), Optional(e.pdDelta),
      Optional(e.presentationDuration), Optional(e.timeShiftBufferDepth), Optional(e.indexRange),
      Optional(e.indexRangeExact), Optional(e.availabilityTimeComplete), Optional(e.initializationElement),
      Optional(e.representationIndex), Optional(e.failoverContent), Optional(e.segmentTimeline),
      Optional(e.bitstreamSwitchingElement), Optional(e.media), Optional(e.index), Optional(e.initialization),
      Optional(e.bitstreamSwitching))
  }

  lemma SegmentTemplateRebuild(e: SegmentTemplate)
    ensures BuildSegmentTemplate(SegmentTemplateBuilderOf(e)) == Ok(e)
  {
  }
}
