/** The root `MPD` element of element/mpd.rs. Its builder gives three
    namespace attributes non-empty defaults, requires a non-empty profile
    list, and, for a dynamic presentation only, requires the availability
    start time and the publish time. */
module Mpd {
  import opened Wrappers
  import opened Errors
  import opened Builders
  import Definition
  import Entity
  import Element

  /** `@type` of a presentation: the two values ISO/IEC 23009-1 defines. */
  datatype PresentationType = Static | Dynamic

  /** Date-times (`XsDateTime`), durations (`XsDuration`) and periods are
      opaque; only whether they are present matters to the validator. */
  datatype MPD = MPD(
    xmlns: Option<string>,
    xmlnsXsi: Option<string>,
    xmlnsXlink: Option<string>,
    xsiSchemaLocation: Option<seq<string>>,
    id: Option<string>,
    profiles: Element.ListOfProfiles,
    kind: Option<PresentationType>,
    availabilityStartTime: Option<Opaque>,
    publishTime: Option<Opaque>,
    availabilityEndTime: Option<Opaque>,
    mediaPresentationDuration: Option<Opaque>,
    minBufferTime: Opaque,
    serviceDescription: Option<seq<Element.ServiceDescription>>,
    period: seq<Opaque>,
    metrics: Option<seq<Element.Metrics>>,
    leapSecondInformation: Option<Element.LeapSecondInformation>)

  datatype MPDBuilder = MPDBuilder(
    xmlns: Option<Option<string>>,
    xmlnsXsi: Option<Option<string>>,
    xmlnsXlink: Option<Option<string>>,
    xsiSchemaLocation: Option<Option<seq<string>>>,
    id: Option<Option<string>>,
    profiles: Option<Element.ListOfProfiles>,
    kind: Option<Option<PresentationType>>,
    availabilityStartTime: Option<Option<Opaque>>,
    publishTime: Option<Option<Opaque>>,
    availabilityEndTime: Option<Option<Opaque>>,
    mediaPresentationDuration: Option<Option<Opaque>>,
    minBufferTime: Option<Opaque>,
    serviceDescription: Option<Option<seq<Element.ServiceDescription>>>,
    period: Option<seq<Opaque>>,
    metrics: Option<Option<seq<Element.Metrics>>>,
    leapSecondInformation: Option<Option<Element.LeapSecondInformation>>)

  const EMPTY_MPD: MPDBuilder :=
    MPDBuilder(None, None, None, None, None, None, None, None, None, None, None, None, None, None, None, None)

  /** The field defaults of the builder, used when the slot is unset. */
  const DEFAULT_XMLNS: Option<string> := Some(Definition.MPD_NAMESPACE)
  const DEFAULT_XMLNS_XSI: Option<string> := Some(Definition.MPD_SCHEMA_INSTANCE)
  const DEFAULT_SCHEMA_LOCATION: Option<seq<string>> := Some([Definition.MPD_NAMESPACE, Definition.MPD_SCHEMA_FILE])

  const PROFILES_MESSAGE := "MPD must be set profiles."
  const DYNAMIC_MESSAGE := "For @type='dynamic', @availabilityStartTime and @publishTime attribute shall be present"

  /** The builder's type slot says dynamic. */
  predicate IsDynamic(b: MPDBuilder)
  {
    b.kind == Some(Some(Dynamic))
  }

  /** The validator of `MPDBuilder`: profiles first, then the two time stamps
      of a dynamic presentation. `@minBufferTime` is never required. */
  function ValidateMpd(b: MPDBuilder): (r: Outcome<string>)
    ensures r.Pass? <==> (NonEmpty(b.profiles)
      && (IsDynamic(b) ==> b.availabilityStartTime.Some? && b.publishTime.Some?))
    ensures !NonEmpty(b.profiles) ==> r == Fail(PROFILES_MESSAGE)
    ensures NonEmpty(b.profiles) && r.Fail? ==> r == Fail(DYNAMIC_MESSAGE) && IsDynamic(b)
  {
    if !NonEmpty(b.profiles) then Fail(PROFILES_MESSAGE)
    else if IsDynamic(b) && (b.availabilityStartTime.None? || b.publishTime.None?) then Fail(DYNAMIC_MESSAGE)
    else Pass
  }

  function BuildMpd(b: MPDBuilder): (r: Result<MPD, BuildError>)
    ensures r.Ok? <==> (b.profiles.Some? && |b.profiles.value| > 0
      && (b.kind == Some(Some(Dynamic)) ==> b.availabilityStartTime.Some? && b.publishTime.Some?))
    ensures r.Err? ==> r.error.message in {PROFILES_MESSAGE, DYNAMIC_MESSAGE}
    ensures r.Ok? ==> r.value.profiles == b.profiles.value && r.value.kind == Fill(b.kind, None)
    ensures r.Ok? ==> r.value.xmlns == Fill(b.xmlns, DEFAULT_XMLNS)
    ensures r.Ok? ==> r.value.xmlnsXsi == Fill(b.xmlnsXsi, DEFAULT_XMLNS_XSI)
    ensures r.Ok? ==> r.value.xsiSchemaLocation == Fill(b.xsiSchemaLocation, DEFAULT_SCHEMA_LOCATION)
    ensures r.Ok? ==> r.value.xmlnsXlink == Fill(b.xmlnsXlink, None) && r.value.id == Fill(b.id, None)
    ensures r.Ok? ==> r.value.availabilityStartTime == Fill(b.availabilityStartTime, None)
    ensures r.Ok? ==> r.value.publishTime == Fill(b.publishTime, None)
    ensures r.Ok? ==> r.value.availabilityEndTime == Fill(b.availabilityEndTime, None)
    ensures r.Ok? ==> r.value.mediaPresentationDuration == Fill(b.mediaPresentationDuration, None)
    ensures r.Ok? ==> r.value.minBufferTime == Fill(b.minBufferTime, OPAQUE_DEFAULT)
    ensures r.Ok? ==> r.value.serviceDescription == Fill(b.serviceDescription, None)
    ensures r.Ok? ==> r.value.period == Fill(b.period, []) && r.value.metrics == Fill(b.metrics, None)
    ensures r.Ok? ==> r.value.leapSecondInformation == Fill(b.leapSecondInformation, None)
  {
    Finish(ValidateMpd(b), MPD(
      Fill(b.xmlns, DEFAULT_XMLNS), Fill(b.xmlnsXsi, DEFAULT_XMLNS_XSI), Fill(b.xmlnsXlink, None),
      Fill(b.xsiSchemaLocation, DEFAULT_SCHEMA_LOCATION), Fill(b.id, None), Fill(b.profiles, []),
      Fill(b.kind, None), Fill(b.availabilityStartTime, None), Fill(b.publishTime, None),
      Fill(b.availabilityEndTime, None), Fill(b.mediaPresentationDuration, None),
      Fill(b.minBufferTime, OPAQUE_DEFAULT), Fill(b.serviceDescription, None), Fill(b.period, []),
      Fill(b.metrics, None), Fill(b.leapSecondInformation, None)))
  }

  function MPDBuilderOf(m: MPD): MPDBuilder
  {
    MPDBuilder(Optional(m.xmlns), Optional(m.xmlnsXsi), Optional(m.xmlnsXlink), Optional(m.xsiSchemaLocation),
      Optional(m.id), Some(m.profiles), Optional(m.kind), Optional(m.availabilityStartTime),
      Optional(m.publishTime), Optional(m.availabilityEndTime), Optional(m.mediaPresentationDuration),
      Some(m.minBufferTime), Optional(m.serviceDescription), Some(m.period), Optional(m.metrics),
      Optional(m.leapSecondInformation))
  }

  /** A manifest is rebuilt exactly when it has a profile and, if dynamic,
      both time stamps. An absent namespace is not rebuilt as absent: the
      unset slot takes its default, and only those three fields change. */
  lemma MpdRebuild(m: MPD)
    ensures BuildMpd(MPDBuilderOf(m)).Ok? <==> (m.profiles != []
      && (m.kind == Some(Dynamic) ==> m.availabilityStartTime.Some? && m.publishTime.Some?))
    ensures BuildMpd(MPDBuilderOf(m)).Ok? ==> BuildMpd(MPDBuilderOf(m)) == Ok(m.(
      xmlns := if m.xmlns.Some? then m.xmlns else DEFAULT_XMLNS,
      xmlnsXsi := if m.xmlnsXsi.Some? then m.xmlnsXsi else DEFAULT_XMLNS_XSI,
      xsiSchemaLocation := if m.xsiSchemaLocation.Some? then m.xsiSchemaLocation else DEFAULT_SCHEMA_LOCATION))
    ensures m.xmlns.Some? && m.xmlnsXsi.Some? && m.xsiSchemaLocation.Some? && BuildMpd(MPDBuilderOf(m)).Ok?
      ==> BuildMpd(MPDBuilderOf(m)) == Ok(m)
    ensures m.xmlns.None? && BuildMpd(MPDBuilderOf(m)).Ok?
      ==> BuildMpd(MPDBuilderOf(m)).value.xmlns == Some(Definition.MPD_NAMESPACE)
  {
    var b := MPDBuilderOf(m);
    assert IsDynamic(b) <==> m.kind == Some(Dynamic);
  }

  /** A missing or empty profile list is reported before anything about
      the presentation type. */
  lemma ProfilesCheckedFirst(b: MPDBuilder)
    requires b.profiles.None? || b.profiles.value == []
    ensures BuildMpd(b) == Err(ValidationError(PROFILES_MESSAGE))
  {
  }

  /** Unless the type is dynamic, the time stamps are not required. */
  lemma StaticNeedsNoTimes(b: MPDBuilder, p: Definition.Profile)
    requires b.kind != Some(Some(Dynamic))
    ensures BuildMpd(b.(profiles := Some([p]), availabilityStartTime := None, publishTime := None, minBufferTime := None)).Ok?
  {
  }

  /** The defaults of an untouched namespace: the MPEG-DASH schema URN, the
      XML Schema instance URL and the schema location pair. */
  lemma MpdDefaults(p: Definition.Profile)
    ensures var r := BuildMpd(EMPTY_MPD.(profiles := Some([p])));
      && r.Ok?
      && r.value.xmlns == Some("urn:mpeg:dash:schema:mpd:2011")
      && r.value.xmlnsXsi == Some("http://www.w3.org/2001/XMLSchema-instance")
      && r.value.xsiSchemaLocation == Some(["urn:mpeg:dash:schema:mpd:2011", "DASH-MPD.xsd"])
    ensures Entity.IsUrn(DEFAULT_XMLNS.value) && Entity.IsUrl(DEFAULT_XMLNS_XSI.value)
  {
    Definition.NamespaceIsUrn();
    Definition.SchemaInstanceIsUrl();
  }

  lemma MpdExamples(now: Opaque, later: Opaque)
    ensures BuildMpd(EMPTY_MPD.(profiles := Some([Definition.Full]))).Ok?
    ensures var d := EMPTY_MPD.(profiles := Some([Definition.Full]), kind := Some(Some(Dynamic)));
      && BuildMpd(d.(availabilityStartTime := Some(Some(now)), publishTime := Some(Some(later)))).Ok?
      && BuildMpd(d) == Err(ValidationError(DYNAMIC_MESSAGE))
      && BuildMpd(d.(availabilityStartTime := Some(Some(now)))) == Err(ValidationError(DYNAMIC_MESSAGE))
      && BuildMpd(d.(publishTime := Some(Some(later)))) == Err(ValidationError(DYNAMIC_MESSAGE))
    ensures BuildMpd(EMPTY_MPD) == Err(ValidationError(PROFILES_MESSAGE))
  {
  }
}
