/** `Representation` and `SubRepresentation` of element/repr.rs. A
    representation needs `@id` and `@bandwidth`; a sub-representation with
    a `@level` needs a `@bandwidth`. Neither validator looks at anything
    else: in particular a representation may carry a segment base, list and
    template at once. */
module Repr {
  import opened Wrappers
  import opened Errors
  import opened Decimal
  import opened Builders
  import Segments

  // ---------------------------------------------------------------------
  // SubRepresentation

  /** The common attributes and elements no validator reads (profiles,
      codecs, descriptors, ...) are one opaque slot. */
  datatype SubRepresentation = SubRepresentation(
    level: Option<U32>,
    dependencyLevel: Option<seq<U32>>,
    bandwidth: Option<U32>,
    contentComponent: Option<seq<string>>,
    common: Opaque)

  datatype SubRepresentationBuilder = SubRepresentationBuilder(
    level: Option<Option<U32>>,
    dependencyLevel: Option<Option<seq<U32>>>,
    bandwidth: Option<Option<U32>>,
    contentComponent: Option<Option<seq<string>>>,
    common: Option<Opaque>)

  const EMPTY_SUB_REPRESENTATION: SubRepresentationBuilder := SubRepresentationBuilder(None, None, None, None, None)

  const SUB_REPRESENTATION_MESSAGE := "This attribute shall be present if the @level attribute is present."

  function BuildSubRepresentation(b: SubRepresentationBuilder): (r: Result<SubRepresentation, BuildError>)
    ensures r.Err? <==> b.level.Some? && b.bandwidth.None?
    ensures r.Err? ==> r.error == ValidationError(SUB_REPRESENTATION_MESSAGE)
    ensures r.Ok? ==> r.value.level == Fill(b.level, None) && r.value.bandwidth == Fill(b.bandwidth, None)
    ensures r.Ok? ==> r.value.dependencyLevel == Fill(b.dependencyLevel, None)
    ensures r.Ok? ==> r.value.contentComponent == Fill(b.contentComponent, None)
    ensures r.Ok? ==> r.value.common == Fill(b.common, OPAQUE_DEFAULT)
  {
    var check := if b.level.Some? && b.bandwidth.None? then Fail(SUB_REPRESENTATION_MESSAGE) else Pass;
    Finish(check, SubRepresentation(Fill(b.level, None), Fill(b.dependencyLevel, None), Fill(b.bandwidth, None),
      Fill(b.contentComponent, None), Fill(b.common, OPAQUE_DEFAULT)))
  }

  function SubRepresentationBuilderOf(e: SubRepresentation): SubRepresentationBuilder
  {
    SubRepresentationBuilder(Optional(e.level), Optional(e.dependencyLevel), Optional(e.bandwidth),
      Optional(e.contentComponent), Some(e.common))
  }

  /** A built sub-representation with a level always has a bandwidth, and
      every such value is rebuilt. */
  lemma SubRepresentationRebuild(e: SubRepresentation)
    ensures BuildSubRepresentation(SubRepresentationBuilderOf(e)).Ok? <==> (e.level.Some? ==> e.bandwidth.Some?)
    ensures (e.level.Some? ==> e.bandwidth.Some?) ==> BuildSubRepresentation(SubRepresentationBuilderOf(e)) == Ok(e)
  {
  }

  lemma SubRepresentationExamples()
    ensures BuildSubRepresentation(EMPTY_SUB_REPRESENTATION).Ok?
    ensures BuildSubRepresentation(EMPTY_SUB_REPRESENTATION.(level := Some(Some(1)), bandwidth := Some(Some(2_000_000)))).Ok?
    ensures BuildSubRepresentation(EMPTY_SUB_REPRESENTATION.(level := Some(Some(1)))).Err?
    ensures BuildSubRepresentation(EMPTY_SUB_REPRESENTATION.(bandwidth := Some(Some(2_000_000)))).Ok?
  {
  }

  // ---------------------------------------------------------------------
  // Representation

  /** `@id` is a `NoWhitespace`, opaque here; the common attributes and
      elements no validator reads are one opaque slot. */
  datatype Representation = Representation(
    id: Opaque,
    bandwidth: U32,
    qualityRanking: Option<U32>,
    dependencyId: Option<seq<string>>,
    associationId: Option<seq<string>>,
    mediaStreamStructureId: Option<seq<string>>,
    subRepresentation: Option<seq<SubRepresentation>>,
    segmentBase: Option<Segments.SegmentBase>,
    segmentList: Option<Segments.SegmentList>,
    segmentTemplate: Option<Segments.SegmentTemplate>,
    common: Opaque)

  datatype RepresentationBuilder = RepresentationBuilder(
    id: Option<Opaque>,
    bandwidth: Option<U32>,
    qualityRanking: Option<Option<U32>>,
    dependencyId: Option<Option<seq<string>>>,
    associationId: Option<Option<seq<string>>>,
    mediaStreamStructureId: Option<Option<seq<string>>>,
    subRepresentation: Option<Option<seq<SubRepresentation>>>,
    segmentBase: Option<Option<Segments.SegmentBase>>,
    segmentList: Option<Option<Segments.SegmentList>>,
    segmentTemplate: Option<Option<Segments.SegmentTemplate>>,
    common: Option<Opaque>)

  const EMPTY_REPRESENTATION: RepresentationBuilder :=
    RepresentationBuilder(None, None, None, None, None, None, None, None, None, None, None)

  const REPRESENTATION_MESSAGE := "Representation must be set @id and @bandwidth"

  function BuildRepresentation(b: RepresentationBuilder): (r: Result<Representation, BuildError>)
    ensures r.Ok? <==> b.id.Some? && b.bandwidth.Some?
    ensures r.Err? ==> r.error == ValidationError(REPRESENTATION_MESSAGE)
    ensures r.Ok? ==> r.value.id == b.id.value && r.value.bandwidth == b.bandwidth.value
    ensures r.Ok? ==> r.value.qualityRanking == Fill(b.qualityRanking, None)
    ensures r.Ok? ==> r.value.dependencyId == Fill(b.dependencyId, None) && r.value.associationId == Fill(b.associationId, None)
    ensures r.Ok? ==> r.value.mediaStreamStructureId == Fill(b.mediaStreamStructureId, None)
    ensures r.Ok? ==> r.value.subRepresentation == Fill(b.subRepresentation, None)
    ensures r.Ok? ==> r.value.segmentBase == Fill(b.segmentBase, None) && r.value.segmentList == Fill(b.segmentList, None)
    ensures r.Ok? ==> r.value.segmentTemplate == Fill(b.segmentTemplate, None)
    ensures r.Ok? ==> r.value.common == Fill(b.common, OPAQUE_DEFAULT)
  {
    var check := if b.id.None? || b.bandwidth.None? then Fail(REPRESENTATION_MESSAGE) else Pass;
    Finish(check, Representation(Fill(b.id, OPAQUE_DEFAULT), Fill(b.bandwidth, 0), Fill(b.qualityRanking, None),
      Fill(b.dependencyId, None), Fill(b.associationId, None), Fill(b.mediaStreamStructureId, None),
      Fill(b.subRepresentation, None), Fill(b.segmentBase, None), Fill(b.segmentList, None),
      Fill(b.segmentTemplate, None), Fill(b.common, OPAQUE_DEFAULT)))
  }

  function RepresentationBuilderOf(e: Representation): RepresentationBuilder
  {
    RepresentationBuilder(Some(e.id), Some(e.bandwidth), Optional(e.qualityRanking), Optional(e.dependencyId),
      Optional(e.associationId), Optional(e.mediaStreamStructureId), Optional(e.subRepresentation),
      Optional(e.segmentBase), Optional(e.segmentList), Optional(e.segmentTemplate), Some(e.common))
  }

  lemma RepresentationRebuild(e: Representation)
    ensures BuildRepresentation(RepresentationBuilderOf(e)) == Ok(e)
  {
  }

  /** The three segment addressing schemes together are not refused. */
  lemma RepresentationAllAddressing(b: RepresentationBuilder, sb: Segments.SegmentBase,
                                    sl: Segments.SegmentList, st: Segments.SegmentTemplate)
    requires b.id.Some? && b.bandwidth.Some?
    ensures var r := BuildRepresentation(b.(segmentBase := Some(Some(sb)), segmentList := Some(Some(sl)),
                                            segmentTemplate := Some(Some(st))));
      r.Ok? && r.value.segmentBase == Some(sb) && r.value.segmentList == Some(sl) && r.value.segmentTemplate == Some(st)
  {
  }

  lemma RepresentationExamples(id720p: Opaque)
    ensures BuildRepresentation(EMPTY_REPRESENTATION.(id := Some(id720p), bandwidth := Some(2_000_000))).Ok?
    ensures BuildRepresentation(EMPTY_REPRESENTATION).Err?
    ensures BuildRepresentation(EMPTY_REPRESENTATION.(id := Some(id720p))).Err?
    ensures BuildRepresentation(EMPTY_REPRESENTATION.(bandwidth := Some(2_000_000))).Err?
  {
  }
}
