/** Schema constants and the string enums of definition.rs: the open
    `Profile` with its `Other` escape, `PeriodSignalling` and
    `Identifier`. */
module Definition {
  import opened Wrappers
  import opened Errors
  import opened Entity

  const MPD_NAMESPACE := "urn:mpeg:dash:schema:mpd:2011"
  const XML_LINKING_LANGUAGE := "http://www.w3.org/1999/xlink"
  const MPD_SCHEMA_FILE := "DASH-MPD.xsd"
  const MPD_SCHEMA_INSTANCE := "http://www.w3.org/2001/XMLSchema-instance"
  const DASH_DVB_EXTENTION := "urn:dvb:dash-extentions:2014-1"
  const ROLE_SCHEME := "urn:mpeg:dash:role:2011"

  /** The namespace constants that are URNs match the schema's `URN`
      pattern, and the ones that are URLs match `URL`. Each proof splits the
      constant into its parts, one small lemma for the text and one for the
      parts' characters. */
  lemma NamespaceIsUrn()
    ensures IsUrn(MPD_NAMESPACE)
  {
    NamespaceText();
    NamespaceWords();
    UrnOf4("mpeg", "dash", "schema", "mpd", "2011");
  }

  lemma NamespaceText()
    ensures MPD_NAMESPACE == "urn:" + "mpeg" + ":" + "dash" + ":" + "schema" + ":" + "mpd" + ":" + "2011"
  {
  }

  lemma NamespaceWords()
    ensures Word("mpeg", IsAlnumDash) && Word("dash", IsAlnumDash) && Word("schema", IsAlnumDash)
    ensures Word("mpd", IsAlnumDash) && Word("2011", IsAlnumDash)
  {
  }

  lemma RoleSchemeIsUrn()
    ensures IsUrn(ROLE_SCHEME)
  {
    RoleSchemeText();
    RoleSchemeWords();
    UrnOf3("mpeg", "dash", "role", "2011");
  }

  lemma RoleSchemeText()
    ensures ROLE_SCHEME == "urn:" + "mpeg" + ":" + "dash" + ":" + "role" + ":" + "2011"
  {
  }

  lemma RoleSchemeWords()
    ensures Word("mpeg", IsAlnumDash) && Word("dash", IsAlnumDash)
    ensures Word("role", IsAlnumDash) && Word("2011", IsAlnumDash)
  {
  }

  lemma DvbExtensionIsUrn()
    ensures IsUrn(DASH_DVB_EXTENTION)
  {
    DvbExtensionText();
    DvbExtensionWords();
    UrnOf2("dvb", "dash-extentions", "2014-1");
  }

  lemma DvbExtensionText()
    ensures DASH_DVB_EXTENTION == "urn:" + "dvb" + ":" + "dash-extentions" + ":" + "2014-1"
  {
  }

  lemma DvbExtensionWords()
    ensures Word("dvb", IsAlnumDash) && Word("dash-extentions", IsAlnumDash) && Word("2014-1", IsAlnumDash)
  {
  }

  lemma LinkingLanguageIsUrl()
    ensures IsUrl(XML_LINKING_LANGUAGE)
  {
    LinkingLanguageText();
    LinkingLanguageWord();
    HttpUrl("www.w3.org/1999/xlink");
  }

  lemma LinkingLanguageText()
    ensures XML_LINKING_LANGUAGE == "http://" + "www.w3.org/1999/xlink"
  {
  }

  lemma LinkingLanguageWord()
    ensures Word("www.w3.org/1999/xlink", IsUrlChar)
  {
  }

  lemma SchemaInstanceIsUrl()
    ensures IsUrl(MPD_SCHEMA_INSTANCE)
  {
    SchemaInstanceText();
    SchemaInstanceWord();
    HttpUrl("www.w3.org/2001/XMLSchema-instance");
  }

  lemma SchemaInstanceText()
    ensures MPD_SCHEMA_INSTANCE == "http://" + "www.w3.org/2001/XMLSchema-instance"
  {
  }

  lemma SchemaInstanceWord()
    ensures Word("www.w3.org/2001/XMLSchema-instance", IsUrlChar)
  {
  }

  lemma HttpUrl(body: string)
    requires Word(body, IsUrlChar)
    ensures IsUrl("http://" + body)
  {
    var s := "http://" + body;
    assert s[..7] == "http://" && s[7..] == body;
  }

  lemma UrnOf2(a: string, b: string, c: string)
    requires Word(a, IsAlnumDash) && Word(b, IsAlnumDash) && Word(c, IsAlnumDash)
    ensures IsUrn("urn:" + a + ":" + b + ":" + c)
  {
    UrnStart(a);
    UrnExtend("urn:" + a, b);
    UrnExtend("urn:" + a + ":" + b, c);
  }

  lemma UrnOf3(a: string, b: string, c: string, d: string)
    requires Word(a, IsAlnumDash) && Word(b, IsAlnumDash) && Word(c, IsAlnumDash) && Word(d, IsAlnumDash)
    ensures IsUrn("urn:" + a + ":" + b + ":" + c + ":" + d)
  {
    UrnOf2(a, b, c);
    UrnExtend("urn:" + a + ":" + b + ":" + c, d);
  }

  lemma UrnOf4(a: string, b: string, c: string, d: string, e: string)
    requires Word(a, IsAlnumDash) && Word(b, IsAlnumDash) && Word(c, IsAlnumDash)
    requires Word(d, IsAlnumDash) && Word(e, IsAlnumDash)
    ensures IsUrn("urn:" + a + ":" + b + ":" + c + ":" + d + ":" + e)
  {
    UrnOf3(a, b, c, d);
    UrnExtend("urn:" + a + ":" + b + ":" + c + ":" + d, e);
  }

  // ---------------------------------------------------------------------
  // PeriodSignalling

  datatype PeriodSignalling = Continuity | Connectivity

  function ShowPeriodSignalling(p: PeriodSignalling): string
  {
    match p
    case Continuity => "urn:mpeg:dash:period-continuity:2015"
    case Connectivity => "urn:mpeg:dash:period-connectivity:2015"
  }

  /** The derived `EnumString`: only the exact serialized text of a variant
      is accepted. */
  function ParsePeriodSignalling(s: string): (r: Result<PeriodSignalling, StrumError>)
    ensures r.Ok? ==> ShowPeriodSignalling(r.value) == s
    ensures r.Err? ==> forall p :: ShowPeriodSignalling(p) != s
    ensures r.Err? ==> r.error == VariantNotFound
  {
    if s == "urn:mpeg:dash:period-continuity:2015" then Ok(Continuity)
    else if s == "urn:mpeg:dash:period-connectivity:2015" then Ok(Connectivity)
    else
      assert forall p :: ShowPeriodSignalling(p) != s;
      Err(VariantNotFound)
  }

  lemma PeriodSignallingRoundTrip(p: PeriodSignalling)
    ensures ParsePeriodSignalling(ShowPeriodSignalling(p)) == Ok(p)
  {
  }

  // ---------------------------------------------------------------------
  // Identifier

  datatype Identifier = RepresentationID | Number | Bandwidth | Time | SubNumber

  function ShowIdentifier(i: Identifier): string
  {
    match i
    case RepresentationID => "$RepresentationID$"
    case Number => "$Number$"
    case Bandwidth => "$Bandwidth$"
    case Time => "$Time$"
    case SubNumber => "$SubNumber$"
  }

  function ParseIdentifier(s: string): (r: Result<Identifier, StrumError>)
    ensures r.Ok? ==> ShowIdentifier(r.value) == s
    ensures r.Err? ==> forall i :: ShowIdentifier(i) != s
    ensures r.Err? ==> r.error == VariantNotFound
  {
    if s == "$RepresentationID$" then Ok(RepresentationID)
    else if s == "$Number$" then Ok(Number)
    else if s == "$Bandwidth$" then Ok(Bandwidth)
    else if s == "$Time$" then Ok(Time)
    else if s == "$SubNumber$" then Ok(SubNumber)
    else
      assert forall i :: ShowIdentifier(i) != s;
      Err(VariantNotFound)
  }

  lemma IdentifierRoundTrip(i: Identifier)
    ensures ParseIdentifier(ShowIdentifier(i)) == Ok(i)
  {
  }

  // ---------------------------------------------------------------------
  // Profile

  datatype Profile =
    | Full
    | IsoOnDemand
    | IsoLive
    | IsoMain
    | Mp2tMain
    | Mp2tSimple
    | IsoExtLive
    | IsoExtOnDemand
    | IsoCommon
    | IsoBroadcast
    | Cmaf
    | CmafExt
    | Other(uri: string)

  const DASH_PROFILE_PREFIX := "urn:mpeg:dash:profile:"

  /** The name and year of each known profile's URN,
      "urn:mpeg:dash:profile:<name>:<year>". */
  function KnownParts(p: Profile): (parts: (string, string))
    requires !p.Other?
    ensures |parts.1| == 4
  {
    match p
    case Full => ("full", "2011")
    case IsoOnDemand => ("isoff-on-demand", "2011")
    case IsoLive => ("isoff-live", "2011")
    case IsoMain => ("isoff-main", "2011")
    case Mp2tMain => ("mp2t-main", "2011")
    case Mp2tSimple => ("mp2t-simple", "2011")
    case IsoExtLive => ("isoff-ext-live", "2014")
    case IsoExtOnDemand => ("isoff-ext-on-demand", "2014")
    case IsoCommon => ("isoff-common", "2014")
    case IsoBroadcast => ("isoff-broadcast", "2015")
    case Cmaf => ("cmaf", "2019")
    case CmafExt => ("cmaf-extended", "2019")
  }

  /** `Display`: the URN of a known profile, or the text of `Other`. */
  function ShowProfile(p: Profile): string
  {
    match p
    case Other(s) => s
    case _ => DASH_PROFILE_PREFIX + KnownParts(p).0 + ":" + KnownParts(p).1
  }

  /** Every known URN has 'm' (of "mpeg") as its fifth character. */
  lemma KnownFifthChar(p: Profile)
    requires !p.Other?
    ensures |ShowProfile(p)| > 4 && ShowProfile(p)[4] == 'm'
  {
    assert ShowProfile(p) == DASH_PROFILE_PREFIX + (KnownParts(p).0 + ":" + KnownParts(p).1);
  }

  const KNOWN_PROFILES: seq<Profile> := [
    Full, IsoOnDemand, IsoLive, IsoMain, Mp2tMain, Mp2tSimple,
    IsoExtLive, IsoExtOnDemand, IsoCommon, IsoBroadcast, Cmaf, CmafExt
  ]

  lemma KnownListed(p: Profile)
    requires !p.Other?
    ensures p in KNOWN_PROFILES
  {
  }

  /** The first profile of `ps` whose text is `s`. */
  function Find(s: string, ps: seq<Profile>): (r: Option<Profile>)
    ensures r.Some? ==> r.value in ps && ShowProfile(r.value) == s
    ensures r.None? ==> forall p | p in ps :: ShowProfile(p) != s
  {
    if |ps| == 0 then None
    else if ShowProfile(ps[0]) == s then Some(ps[0])
    else Find(s, ps[1..])
  }

  /** The known profile whose URN is exactly `s`, if any: the `match` of
      `from_str` over the twelve URNs. */
  function KnownProfile(s: string): (r: Option<Profile>)
    ensures r.Some? ==> !r.value.Other? && ShowProfile(r.value) == s
    ensures r.None? ==> forall p: Profile | !p.Other? :: ShowProfile(p) != s
  {
    var r := Find(s, KNOWN_PROFILES);
    assert forall p: Profile | !p.Other? :: p in KNOWN_PROFILES by {
      forall p: Profile | !p.Other? ensures p in KNOWN_PROFILES {
        KnownListed(p);
      }
    }
    r
  }

  /** The known profile with a given name. */
  function FromName(name: string): Option<Profile>
  {
    if name == "full" then Some(Full)
    else if name == "isoff-on-demand" then Some(IsoOnDemand)
    else if name == "isoff-live" then Some(IsoLive)
    else if name == "isoff-main" then Some(IsoMain)
    else if name == "mp2t-main" then Some(Mp2tMain)
    else if name == "mp2t-simple" then Some(Mp2tSimple)
    else if name == "isoff-ext-live" then Some(IsoExtLive)
    else if name == "isoff-ext-on-demand" then Some(IsoExtOnDemand)
    else if name == "isoff-common" then Some(IsoCommon)
    else if name == "isoff-broadcast" then Some(IsoBroadcast)
    else if name == "cmaf" then Some(Cmaf)
    else if name == "cmaf-extended" then Some(CmafExt)
    else None
  }

  /** The name sits between the prefix and ':' plus the year. */
  lemma NameOfUrn(prefix: string, name: string, year: string)
    ensures var s := prefix + name + ":" + year;
      s[|prefix|..|s| - |year| - 1] == name
  {
  }

  lemma FromNameKnown(p: Profile)
    requires !p.Other?
    ensures FromName(KnownParts(p).0) == Some(p)
  {
  }

  /** Distinct known profiles have distinct URNs. */
  lemma KnownShowInjective(p: Profile, q: Profile)
    requires !p.Other? && !q.Other? && ShowProfile(p) == ShowProfile(q)
    ensures p == q
  {
    NameOfUrn(DASH_PROFILE_PREFIX, KnownParts(p).0, KnownParts(p).1);
    NameOfUrn(DASH_PROFILE_PREFIX, KnownParts(q).0, KnownParts(q).1);
    FromNameKnown(p);
    FromNameKnown(q);
  }

  /** `Profile::from_str`: text outside `PATTERN_PROFILE` is
      `UnmatchedPattern`; a known URN is its variant; any other matching
      text, a list of several profiles included, is kept as `Other`. In
      every case the text of the result is the input. */
  function ParseProfile(s: string): (r: Result<Profile, MpdError>)
    ensures r.Err? <==> !MatchesProfile(s)
    ensures r.Err? ==> r.error == UnmatchedPattern
    ensures r.Ok? ==> ShowProfile(r.value) == s
    ensures r.Ok? ==> (r.value.Other? <==> forall p: Profile | !p.Other? :: ShowProfile(p) != s)
  {
    if !MatchesProfile(s) then Err(UnmatchedPattern)
    else
      match KnownProfile(s)
      case Some(p) => Ok(p)
      case None => Ok(Other(s))
  }

  /** A profile is canonical when it is not an `Other` that could have been
      parsed as something else: the payload of `Other` matches the pattern
      and is not a known URN. */
  ghost predicate IsCanonical(p: Profile) {
    p.Other? ==> MatchesProfile(p.uri) && forall q: Profile | !q.Other? :: ShowProfile(q) != p.uri
  }

  lemma DashProfileUrn(name: string, year: string)
    requires Word(name, IsAlnumDash) && Word(year, IsAlnumDash)
    ensures IsUrn(DASH_PROFILE_PREFIX + name + ":" + year)
  {
    ProfilePrefixText();
    ProfilePrefixWords();
    UrnOf2("mpeg", "dash", "profile");
    UrnExtend("urn:" + "mpeg" + ":" + "dash" + ":" + "profile", name);
    UrnExtend("urn:" + "mpeg" + ":" + "dash" + ":" + "profile" + ":" + name, year);
  }

  lemma ProfilePrefixText()
    ensures DASH_PROFILE_PREFIX == "urn:" + "mpeg" + ":" + "dash" + ":" + "profile" + ":"
  {
  }

  lemma ProfilePrefixWords()
    ensures Word("mpeg", IsAlnumDash) && Word("dash", IsAlnumDash) && Word("profile", IsAlnumDash)
  {
  }

  lemma KnownPartsAreWords(p: Profile)
    requires !p.Other?
    ensures Word(KnownParts(p).0, IsAlnumDash) && Word(KnownParts(p).1, IsAlnumDash)
  {
  }

  /** Every known profile's URN is a URN of the schema's pattern. */
  lemma KnownUrn(p: Profile)
    requires !p.Other?
    ensures IsUrn(ShowProfile(p))
  {
    KnownPartsAreWords(p);
    DashProfileUrn(KnownParts(p).0, KnownParts(p).1);
  }

  lemma KnownUrnLength(p: Profile)
    requires !p.Other?
    ensures 31 <= |ShowProfile(p)| <= 46
  {
  }

  /** Parsing the text of a canonical profile gives it back; in particular
      every known URN parses to its own variant. */
  lemma ProfileRoundTrip(p: Profile)
    requires IsCanonical(p)
    ensures ParseProfile(ShowProfile(p)) == Ok(p)
  {
    if !p.Other? {
      KnownUrn(p);
      UrnMatchesProfile(ShowProfile(p));
      var r := KnownProfile(ShowProfile(p));
      KnownShowInjective(p, r.value);
    }
  }

  lemma ProfileExampleFull()
    ensures ParseProfile("urn:mpeg:dash:profile:full:2011") == Ok(Full)
  {
    assert ShowProfile(Full) == "urn:mpeg:dash:profile:full:2011";
    ProfileRoundTrip(Full);
  }

  /** A URL that is not a known URN is kept as `Other`. */
  lemma ProfileExampleUrl()
    ensures ParseProfile("https://example.com") == Ok(Other("https://example.com"))
  {
    var s := "https://example.com";
    var body := "example.com";
    assert Word(body, IsUrlChar);
    HttpsUrl(body);
    assert s == "https://" + body;
    UrlMatchesProfile(s);
  }

  lemma HttpsUrl(body: string)
    requires Word(body, IsUrlChar)
    ensures IsUrl("https://" + body)
  {
    var s := "https://" + body;
    assert s[..8] == "https://" && s[8..] == body;
  }

  /** A ','-separated list of known profiles is kept whole as `Other`. */
  lemma ProfileListIsOther(p: Profile, q: Profile)
    requires !p.Other? && !q.Other?
    ensures ParseProfile(ShowProfile(p) + "," + ShowProfile(q))
         == Ok(Other(ShowProfile(p) + "," + ShowProfile(q)))
  {
    var s := ShowProfile(p) + "," + ShowProfile(q);
    KnownUrn(p);
    KnownUrn(q);
    ProfilePairMatches(ShowProfile(p), ShowProfile(q));
    KnownUrnLength(p);
    KnownUrnLength(q);
    forall r: Profile | !r.Other? ensures ShowProfile(r) != s {
      KnownUrnLength(r);
    }
  }

  lemma ProfilePairMatches(a: string, b: string)
    requires IsUrn(a) && IsUrn(b)
    ensures MatchesProfile(a + "," + b)
  {
    var items := [a, b];
    assert Strings.Join(items, ",") == a + "," + b;
    assert forall it | it in items :: IsProfileItem(it);
    ProfileListOf(a + "," + b, items);
    ProfileAgrees(a + "," + b);
  }
}
