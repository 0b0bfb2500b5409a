/** The closed profile enumeration of scheme.rs: the twelve MPEG-DASH
    profiles of the open enumeration plus three industry profiles, with a
    text codec that is a bijection between the fifteen variants and their
    URIs. */
module Scheme {
  import opened Wrappers
  import opened Errors
  import Definition
  import Entity

  datatype Profile =
    | Full
    | IsoOnDemand
    | IsoLive
    | IsoMain
    | Mp2tMain
    | Mp2tSimple
    | IsoExtLive
    | IsoExtOnDemand
    | IsoCommon
    | IsoBroadcast
    | Cmaf
    | CmafExt
    | GppDash10
    | HbbTV20Dash
    | HbbTV15Dash

  /** `#[default]`. */
  const DefaultProfile: Profile := Full

  const ALL_PROFILES: seq<Profile> := [
    Full, IsoOnDemand, IsoLive, IsoMain, Mp2tMain, Mp2tSimple, IsoExtLive,
    IsoExtOnDemand, IsoCommon, IsoBroadcast, Cmaf, CmafExt,
    GppDash10, HbbTV20Dash, HbbTV15Dash
  ]

  lemma AllListed(p: Profile)
    ensures p in ALL_PROFILES
  {
  }

  /** The MPEG-DASH profile of the open enumeration with the same URN, for
      the twelve variants the two enumerations share. */
  function AsMpeg(p: Profile): (q: Option<Definition.Profile>)
    ensures q.Some? ==> !q.value.Other?
  {
    match p
    case Full => Some(Definition.Full)
    case IsoOnDemand => Some(Definition.IsoOnDemand)
    case IsoLive => Some(Definition.IsoLive)
    case IsoMain => Some(Definition.IsoMain)
    case Mp2tMain => Some(Definition.Mp2tMain)
    case Mp2tSimple => Some(Definition.Mp2tSimple)
    case IsoExtLive => Some(Definition.IsoExtLive)
    case IsoExtOnDemand => Some(Definition.IsoExtOnDemand)
    case IsoCommon => Some(Definition.IsoCommon)
    case IsoBroadcast => Some(Definition.IsoBroadcast)
    case Cmaf => Some(Definition.Cmaf)
    case CmafExt => Some(Definition.CmafExt)
    case _ => None
  }

  /** `Display`: the shared profiles use the MPEG-DASH URNs of the open
      enumeration; the other three have their own URIs. */
  function ShowScheme(p: Profile): string
  {
    match AsMpeg(p)
    case Some(q) => Definition.ShowProfile(q)
    case None =>
      match p
      case GppDash10 => "urn:3GPP:PSS:profile:DASH10"
      case HbbTV20Dash => "urn:dvb:dash:profile:dvb-dash:2014"
      case _ => "urn:hbbtv:dash:profile:isoff-live:2012"
  }

  /** The first profile of `ps` with text `s`. */
  function Find(s: string, ps: seq<Profile>): (r: Option<Profile>)
    ensures r.Some? ==> ShowScheme(r.value) == s
    ensures r.None? ==> forall p | p in ps :: ShowScheme(p) != s
  {
    if |ps| == 0 then None
    else if ShowScheme(ps[0]) == s then Some(ps[0])
    else Find(s, ps[1..])
  }

  /** `Profile::from_str`: exactly the fifteen URIs are accepted; any other
      text is `InvalidData("Unsupported profile uri.")`. */
  function ParseScheme(s: string): (r: Result<Profile, MpdError>)
    ensures r.Ok? ==> ShowScheme(r.value) == s
    ensures r.Err? <==> forall p :: ShowScheme(p) != s
    ensures r.Err? ==> r.error == InvalidData("Unsupported profile uri.")
  {
    match Find(s, ALL_PROFILES)
    case Some(p) => Ok(p)
    case None =>
      assert forall p :: ShowScheme(p) != s by {
        forall p ensures ShowScheme(p) != s {
          AllListed(p);
        }
      }
      Err(InvalidData("Unsupported profile uri."))
  }

  /** The fifth character of a URI tells the MPEG-DASH URNs ('m') from the
      three industry URIs. */
  lemma FifthChar(p: Profile)
    ensures |ShowScheme(p)| > 4
    ensures AsMpeg(p).Some? <==> ShowScheme(p)[4] == 'm'
  {
    if AsMpeg(p).Some? {
      Definition.KnownFifthChar(AsMpeg(p).value);
    }
  }

  /** `fmt` is injective: distinct variants have distinct URIs. */
  lemma ShowInjective(p: Profile, q: Profile)
    requires ShowScheme(p) == ShowScheme(q)
    ensures p == q
  {
    FifthChar(p);
    FifthChar(q);
    if AsMpeg(p).Some? {
      Definition.KnownShowInjective(AsMpeg(p).value, AsMpeg(q).value);
    }
  }

  /** `from_str` inverts `fmt` for every variant. */
  lemma SchemeRoundTrip(p: Profile)
    ensures ParseScheme(ShowScheme(p)) == Ok(p)
  {
    AllListed(p);
    var r := ParseScheme(ShowScheme(p));
    ShowInjective(p, r.value);
  }

  /** The default profile is the full profile, with its URN. */
  lemma DefaultIsFull()
    ensures DefaultProfile == Full
    ensures ShowScheme(DefaultProfile) == "urn:mpeg:dash:profile:full:2011"
  {
  }

  /** The three industry profiles are URNs the open enumeration does not
      know, so it keeps them as `Other`. */
  lemma IndustryProfilesAreOther(p: Profile)
    requires AsMpeg(p).None?
    ensures Definition.ParseProfile(ShowScheme(p)) == Ok(Definition.Other(ShowScheme(p)))
  {
    FifthChar(p);
    IndustryUrns(p);
    Entity.UrnMatchesProfile(ShowScheme(p));
    forall q: Definition.Profile | !q.Other?
      ensures Definition.ShowProfile(q) != ShowScheme(p)
    {
      Definition.KnownFifthChar(q);
    }
  }

  lemma IndustryUrns(p: Profile)
    requires AsMpeg(p).None?
    ensures Entity.IsUrn(ShowScheme(p))
  {
    match p
    case GppDash10 => GppUrn();
    case HbbTV20Dash => DvbUrn();
    case HbbTV15Dash => HbbTVUrn();
  }

  lemma GppUrn()
    ensures Entity.IsUrn("urn:3GPP:PSS:profile:DASH10")
  {
    GppText();
    GppWords();
    Definition.UrnOf3("3GPP", "PSS", "profile", "DASH10");
  }

  lemma GppText()
    ensures "urn:3GPP:PSS:profile:DASH10" == "urn:" + "3GPP" + ":" + "PSS" + ":" + "profile" + ":" + "DASH10"
  {
  }

  lemma GppWords()
    ensures Entity.Word("3GPP", Entity.IsAlnumDash) && Entity.Word("PSS", Entity.IsAlnumDash)
    ensures Entity.Word("profile", Entity.IsAlnumDash) && Entity.Word("DASH10", Entity.IsAlnumDash)
  {
  }

  lemma DvbUrn()
    ensures Entity.IsUrn("urn:dvb:dash:profile:dvb-dash:2014")
  {
    DvbText();
    DvbWords();
    Definition.UrnOf4("dvb", "dash", "profile", "dvb-dash", "2014");
  }

  lemma DvbText()
    ensures "urn:dvb:dash:profile:dvb-dash:2014" == "urn:" + "dvb" + ":" + "dash" + ":" + "profile" + ":" + "dvb-dash" + ":" + "2014"
  {
  }

  lemma DvbWords()
    ensures Entity.Word("dvb", Entity.IsAlnumDash) && Entity.Word("dash", Entity.IsAlnumDash)
    ensures Entity.Word("profile", Entity.IsAlnumDash) && Entity.Word("dvb-dash", Entity.IsAlnumDash)
    ensures Entity.Word("2014", Entity.IsAlnumDash)
  {
  }

  lemma HbbTVUrn()
    ensures Entity.IsUrn("urn:hbbtv:dash:profile:isoff-live:2012")
  {
    HbbTVText();
    HbbTVWords();
    Definition.UrnOf4("hbbtv", "dash", "profile", "isoff-live", "2012");
  }

  lemma HbbTVText()
    ensures "urn:hbbtv:dash:profile:isoff-live:2012" == "urn:" + "hbbtv" + ":" + "dash" + ":" + "profile" + ":" + "isoff-live" + ":" + "2012"
  {
  }

  lemma HbbTVWords()
    ensures Entity.Word("hbbtv", Entity.IsAlnumDash) && Entity.Word("dash", Entity.IsAlnumDash)
    ensures Entity.Word("profile", Entity.IsAlnumDash) && Entity.Word("isoff-live", Entity.IsAlnumDash)
    ensures Entity.Word("2012", Entity.IsAlnumDash)
  {
  }
}
