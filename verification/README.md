# mpd-gen core, modelled in Dafny

mpd-gen is a Rust crate that builds and parses MPEG-DASH Media Presentation
Descriptions (MPD manifests, ISO/IEC 23009-1). This project models its
three pure layers and proves their contracts.

1. **Scalar codecs** (`Types`). These are the `FromStr` / `Display` pairs of
   src/types.rs:
   - `StringNoWhitespace`;
   - `FourCC`, with its big-endian `u32` conversion;
   - the generic `WhitespaceSeparatedList`;
   - `AspectRatio`, with the gcd reduction of `From<(u64, u64)>`;
   - `FrameRate`;
   - `StreamAccessPoint`;
   - `SingleRFC7233Range`, the byte-range form of section 2.1 of RFC 7233.

   Supporting modules:
   - `Decimal`: Rust's `u8`/`u32`/`u64` `from_str`, with the overflow limit as a parameter, and `Display`.
   - `Strings`: `split`, `join` and `split_whitespace`.
   - `Utf8`: UTF-8 encoding and lossy decoding, used by `FourCC`.
   - `Chars`: the character classes.

2. **Lexical patterns and profile enums.**
   - `Entity` writes the regular expressions of src/entity.rs as recognisers over `seq<char>`.
   - `Definition` models the open `Profile` enum with its `Other` escape hatch, `PeriodSignalling`, `Identifier` and the namespace constants of src/definition.rs.
   - `Scheme` models the closed 15-variant `Profile` of src/scheme.rs.

3. **Builders** (`Builders`, `Element`, `Segments`, `Repr`, `Mpd`). Each builder is a record of `Option` slots.
   - An `Option<T>` field has an `Option<Option<T>>` slot.
   - A setter is a record update, so the last write wins.
   - The optional-field setters take the payload (`strip_option`), so a slot never holds `Some(None)`. `Builders.Optional` models this.
   - `build` runs the validator. Its refusal becomes `ValidationError(message)`, carrying the exact message of the source.
   - Otherwise every set slot is copied and every unset slot takes the field's default.
   - Every validating builder has a partner lemma (`…Rebuild`). It takes a value apart into a builder and proves that building it gives the value back, exactly when the value satisfies the validator's rule.

Where the code and the documentation or error messages disagree, the model follows the code:
- `AspectRatio::from_str` does not reduce its terms; only `From<(u64, u64)>` does.
- `SingleRFC7233Range` never checks that start ≤ end.
- The second message of `ProducerReferenceTime` reads as if the rule went both ways. The code only refuses an `Application` type without a scheme.
- `ContentProtection` does not enforce that `@ref` and `@refId` exclude each other.
- No builder refuses a representation that carries several segment-addressing schemes.
- src/element/segment.rs uses `CustomValidate` and `MpdError::ValidationError`, which the error enum in src/error.rs does not declare. The refusal is modelled as the same `ValidationError(message)` as the other builders.

## Model

| member | source | states |
|---|---|---|
| Types.ParseStringNoWhitespace | src/types.rs:16-35 | accepts exactly the strings with no CR, LF, tab, space or separator character, the empty string included; the stored text displays unchanged; a refusal is `UnmatchedPattern` |
| Types.StringNoWhitespaceRoundTrip | src/types.rs:16-35 | re-parsing the displayed value gives the same value |
| Types.ShowStringNoWhitespace | src/types.rs:16-20 | no contract: `Display` writes the stored text; its meaning is carried by Types.StringNoWhitespaceRoundTrip |
| Types.ParseFourCC | src/types.rs:50-62 | succeeds iff the UTF-8 encoding of the text is exactly 4 bytes; the bytes are that encoding and display back to the text |
| Types.FourCCU32RoundTrip | src/types.rs:64-82 | `u32::from(FourCC::from(n)) == n` for every `u32`, big-endian |
| Types.ShowFourCC | src/types.rs:98-103 | no contract: `Display` is the lossy UTF-8 decoding of the four bytes; its meaning is carried by Types.FourCCTextRoundTrip |
| Types.FourCCFromU32 | src/types.rs:64-70 | no contract: the big-endian bytes of a `u32`; its meaning is carried by Types.FourCCU32RoundTrip and Types.U32FourCCRoundTrip |
| Types.FourCCToU32 | src/types.rs:72-82 | no contract: the four bytes read big-endian; its meaning is carried by the same two round-trip lemmas |
| Types.U32FourCCRoundTrip | src/types.rs:64-82 | `FourCC::from(u32::from(f)) == f` for every four-byte code |
| Types.FourCCTextRoundTrip | src/types.rs:50-103 | a parsed code displays as text that parses to the same code |
| Types.FourCCAscii | src/types.rs:50-62 | every four-character ASCII text is a valid code |
| Types.FourCCExample | src/types.rs:560-578 | "TSET" is the code of 0x54534554 |
| Types.ParseWords | src/types.rs:121-131 | succeeds iff every word parses, giving the items in order; any failing word fails the whole list with `UnmatchedPattern` |
| Types.ShowList | src/types.rs:109-119 | no contract: the texts of the items joined with one space; its meaning is carried by Types.ListRoundTrip and Types.ListEmpty |
| Types.ParseList | src/types.rs:121-131 | no contract: `split_whitespace` and then Types.ParseWords, whose contract states the outcome; Types.ListRoundTrip is its partner |
| Types.ParseString | src/types.rs:133-134 | no contract: `String::from_str` never fails and keeps the text; Types.StringVectorExample uses it |
| Types.ListEmpty | src/types.rs:109-131 | the empty text parses to the empty list and the empty list displays as "" |
| Types.ListRoundTrip | src/types.rs:109-131 | a list whose items display as non-empty, whitespace-free text that parses back to the item parses back from its display |
| Types.StringVectorExample | src/types.rs:580-590 | "Hello World !" parses to three words and displays back |
| Types.UIntVectorRoundTrip | src/types.rs:109-131 | a list of `u32` parses back from its display |
| Types.GcdDivides | src/types.rs:163-173 | the gcd of two numbers, not both 0, is positive and divides both |
| Types.GcdGreatest | src/types.rs:163-173 | every common divisor divides the gcd |
| Types.ReducedDivisor | src/types.rs:163-173 | after dividing by the gcd, the only common divisor left is 1 |
| Types.AspectRatioFrom | src/types.rs:163-173 | the stored terms times the gcd give back the input, and they share no divisor but 1; needs (h, v) ≠ (0, 0) |
| Types.ParseAspectRatio | src/types.rs:181-199 | succeeds iff splitting on ':' gives exactly two `u64` texts, whose values are stored unreduced; otherwise the error is the format message or the integer error |
| Types.AspectRatioRoundTrip | src/types.rs:175-199 | `parse(format(r)) == r` |
| Types.ShowAspectRatio | src/types.rs:175-179 | no contract: the two terms in decimal around ':'; its meaning is carried by Types.AspectRatioRoundTrip |
| Types.AspectRatioExample | src/types.rs:547-558 | "16:9" parses to the reduction of (1920, 1080), which displays as "16:9" |
| Types.AspectRatioParseKeepsTerms | src/types.rs:181-199 | "1920:1080" parses unreduced, while (1920, 1080) reduces to 16:9 |
| Types.AspectRatioRejectsMissingPart | src/types.rs:181-199 | "16:" fails with the empty-integer error |
| Types.ParseFrameRate | src/types.rs:213-232 | text outside `[0-9]+(/[1-9][0-9]*)?` is refused with `UnmatchedPattern`; otherwise it succeeds iff the frame count and any denominator fit `u64`, keeping their values, and a present denominator is at least 1 |
| Types.FrameRateRoundTrip | src/types.rs:207-232 | re-parsing the display of `{f, d}` gives `{f, Some(d or 1)}` |
| Types.ShowFrameRate | src/types.rs:207-211 | no contract: the frame count, '/' and the denominator or 1; its meaning is carried by Types.FrameRateRoundTrip and Types.FrameRateDefaultDenominator |
| Types.FrameRateDefaultDenominator | src/types.rs:207-232 | "30" parses with no denominator and `{30, None}` displays as "30/1" |
| Types.SapTryFrom | src/types.rs:272-286 | succeeds exactly for 1..=6, keeping the value; otherwise "SAP values must be 1 to 6" |
| Types.ParseSap | src/types.rs:294-300 | an integer error is passed on; a `u8` in 1..=6 gives the variant of that value; any other `u8` gives "SAP values must be 1 to 6" |
| Types.SapExamples | src/types.rs:272-300 | "+3" and "03" parse to `Type3`, because the `u8` parse takes a sign and leading zeros; "0" and "7" get the range message |
| Types.SapRoundTrip | src/types.rs:288-300 | every variant parses back from its display |
| Types.ShowSap | src/types.rs:288-292 | no contract: the number of the variant in decimal; its meaning is carried by Types.SapRoundTrip and Types.SapShowInjective |
| Types.SapShowInjective | src/types.rs:288-292 | distinct variants display differently |
| Types.RangeTextShape | src/types.rs:435-461 | the two captures of the range pattern are the text before and after the first '-' |
| Types.RangeTextUnique | src/types.rs:435-461 | the captures of a matching text are unique |
| Types.RangeCaptures | src/types.rs:435-461 | finds captures exactly when the text matches `([0-9]*)(-([0-9]*))?` |
| Types.RangeMatchParts | src/types.rs:435-461 | a match is all digits, or digits, '-' and digits |
| Types.CaptureBound | src/types.rs:440-458 | a capture gives a bound iff it is non-empty and fits `u64`, so an overflow silently becomes no bound; the bound is the capture's value |
| Types.ParseRange | src/types.rs:435-461 | succeeds iff the text matches the pattern, giving the bounds of its captures; otherwise `UnmatchedPattern` |
| Types.ShowRange | src/types.rs:421-433 | the display is "" exactly when both bounds are absent |
| Types.CaptureBoundShow | src/types.rs:421-461 | a bound's display is a capture that reads back as that bound |
| Types.RangeRoundTrip | src/types.rs:421-461 | `parse(format(r)) == r` for every range, reversed bounds included |
| Types.RangeExampleBoth | src/types.rs:592-608 | "100-200" has both bounds |
| Types.RangeExampleOpenEnd | src/types.rs:592-670 | "100-" has only a start |
| Types.RangeExampleSuffix | src/types.rs:592-670 | "-200" has only an end |
| Types.RangeExampleEmpty | src/types.rs:592-670 | "" has no bounds |
| Types.RangeExampleReversed | src/types.rs:435-461 | "500-499" is accepted with start above end |
| Types.RangeRejectsLetters | src/types.rs:664-670 | "abc-xyz" is refused |
| Decimal.ParseUnsignedSpec | src/types.rs:181-199 | an unsigned parse succeeds iff the text is an optional '+' and digits whose value is below the limit, and gives that value |
| Decimal.Show | src/types.rs:175-179 | the text of a number is one or more ASCII digits; Decimal.ParseShow is its partner |
| Decimal.ParseUnsigned | src/types.rs:181-199 | a parsed value is below the limit; Decimal.ParseUnsignedSpec characterises it fully |
| Decimal.ParseShow | src/types.rs:175-179 | a number below the limit parses back from its decimal display |
| Strings.SplitJoin | src/types.rs:181-199 | splitting the join of separator-free parts gives back the parts |
| Strings.Split | src/types.rs:181-199 | `str::split`: at least one piece, and no piece holds the separator; Strings.SplitJoin is its partner |
| Strings.Join | src/types.rs:109-119 | no contract: `join`; its meaning is carried by Strings.SplitJoin |
| Strings.SplitWhitespace | src/types.rs:121-131 | `split_whitespace`: every word is non-empty and has no white space; Strings.SplitWhitespaceJoin is its partner |
| Strings.SplitWhitespaceJoin | src/types.rs:109-131 | splitting on whitespace runs undoes the single-space join of non-empty, whitespace-free words |
| Utf8.DecodeEncode | src/types.rs:98-103 | lossy decoding of an encoding gives back the text |
| Utf8.Encode | src/types.rs:50-62 | no contract: `str::as_bytes`; its meaning is carried by Utf8.DecodeEncode |
| Utf8.DecodeLossy | src/types.rs:98-103 | no contract: `String::from_utf8_lossy`; its meaning is carried by Utf8.DecodeEncode |
| Entity.IntegerIsUnsignedText | src/entity.rs:4 | `INTEGER` is an optional sign and one or more digits; without '-' it is the text Rust's unsigned parse reads |
| Entity.MatchesInteger | src/entity.rs:4-26 | no contract: `PATTERN_INTEGER`; its meaning is carried by Entity.IntegerIsUnsignedText and Entity.ParsedIsInteger |
| Entity.ParsedIsInteger | src/entity.rs:26 | every successfully parsed unsigned text matches `INTEGER` |
| Entity.NcNamePrefixes | src/entity.rs:7 | an `NC_NAME` has no ':' and each non-empty prefix is an `NC_NAME` |
| Entity.MatchesNcName | src/entity.rs:7-27 | no contract: `PATTERN_NC_NAME`; its meaning is carried by Entity.NcNamePrefixes and Entity.NcNameExtend |
| Entity.NcNameExtend | src/entity.rs:27 | appending name characters keeps an `NC_NAME` |
| Entity.NoWhitespaceAgrees | src/entity.rs:19-31 | `NO_WHITESPACE` matches "" and is the class of `StringNoWhitespace` |
| Entity.MatchesNoWhitespace | src/entity.rs:19-31 | no contract: `PATTERN_NO_WHITESPACE`; its meaning is carried by Entity.NoWhitespaceAgrees |
| Entity.LanguageAgrees | src/entity.rs:10-28 | the recogniser accepts exactly 1-8 letters followed by groups of '-' and 1-8 alphanumerics |
| Entity.MatchesLanguage | src/entity.rs:10-28 | no contract: `PATTERN_LANG`; its meaning is carried by Entity.LanguageAgrees and Entity.LanguageChars |
| Entity.LanguageChars | src/entity.rs:10 | a language tag holds only '-' and ASCII letters and digits |
| Entity.IdListChars | src/entity.rs:15-17 | an id list holds only ',', whitespace and id characters |
| Entity.IdListHasNoQuote | src/entity.rs:16-17 | an id list over a quote-free class has no quote |
| Entity.IdListWiden | src/entity.rs:16-17 | an id list over a class stays one over a wider class |
| Entity.SimpleIsFancy | src/entity.rs:16-40 | every `PATTERN_SIMPLE` text matches `PATTERN_FANCY` |
| Entity.MatchesSimple | src/entity.rs:17-40 | no contract: `PATTERN_SIMPLE`; its meaning is carried by Entity.IdListChars and Entity.SimpleIsFancy |
| Entity.MatchesFancy | src/entity.rs:12-39 | no contract: `PATTERN_FANCY`; its meaning is carried by Entity.SimpleIsFancy and Entity.FancyWithPrefix |
| Entity.FancyWithPrefix | src/entity.rs:33-39 | `charset'language'` before an id list matches `PATTERN_FANCY` |
| Entity.ItemChars | src/entity.rs:23-24 | a profile item has only URL characters, and a URN has no ',' |
| Entity.ProfileListOf | src/entity.rs:30 | a ','-join of one or more URN/URL items is a profile list |
| Entity.ProfileListCons | src/entity.rs:30 | a URN followed by ',' and a profile list is a profile list |
| Entity.ScanUrnStep | src/entity.rs:30 | a scanned list starting with a URN splits at its first ',' |
| Entity.ScanLast | src/entity.rs:30 | the last item of a scan is a URN or URL |
| Entity.ScanSound | src/entity.rs:30 | whatever the scanner accepts is a profile list |
| Entity.ScanComplete | src/entity.rs:30 | the scanner accepts every ','-join of items |
| Entity.UrlAbsorbsRest | src/entity.rs:24-30 | a URL item absorbs the commas after it |
| Entity.ProfileAgrees | src/entity.rs:23-30 | `PATTERN_PROFILE` matches exactly the non-empty ','-separated lists of URN or http(s) URL items |
| Entity.MatchesProfile | src/entity.rs:23-30 | no contract: `PATTERN_PROFILE`, by a left-to-right scan; its meaning is carried by Entity.ProfileAgrees |
| Entity.UrnMatchesProfile | src/entity.rs:23-30 | a URN alone matches `PATTERN_PROFILE` |
| Entity.UrlMatchesProfile | src/entity.rs:24-30 | a URL alone matches `PATTERN_PROFILE` |
| Entity.UrnExtend | src/entity.rs:23 | a URN followed by ':' and a word is a URN |
| Entity.UrnStart | src/entity.rs:23 | "urn:" and a word is a URN |
| Entity.IsUrn | src/entity.rs:23 | no contract: the `URN` pattern; its meaning is carried by Entity.UrnStart, Entity.UrnExtend and Entity.ItemChars |
| Entity.IsUrl | src/entity.rs:24 | no contract: the `URL` pattern; its meaning is carried by Entity.UrlMatchesProfile, Entity.UrlAbsorbsRest and Entity.ItemChars |
| Definition.NamespaceIsUrn | src/definition.rs:9 | the MPD namespace is a URN |
| Definition.RoleSchemeIsUrn | src/definition.rs:15 | the role scheme is a URN |
| Definition.DvbExtensionIsUrn | src/definition.rs:13 | the DVB extension namespace is a URN |
| Definition.LinkingLanguageIsUrl | src/definition.rs:10 | the XLink namespace is an http URL |
| Definition.SchemaInstanceIsUrl | src/definition.rs:12 | the XML Schema instance namespace is an http URL |
| Definition.ParsePeriodSignalling | src/definition.rs:17-23 | a success displays back as the input; a failure means no variant displays as it, with `VariantNotFound` |
| Definition.PeriodSignallingRoundTrip | src/definition.rs:17-23 | each variant parses back from its serialize string |
| Definition.ShowPeriodSignalling | src/definition.rs:17-23 | no contract: the serialize strings; their meaning is carried by Definition.PeriodSignallingRoundTrip |
| Definition.ParseIdentifier | src/definition.rs:81-93 | a success displays back as the input; a failure means no variant displays as it, with `VariantNotFound` |
| Definition.IdentifierRoundTrip | src/definition.rs:81-93 | each identifier parses back from its `$…$` string |
| Definition.ShowIdentifier | src/definition.rs:81-93 | no contract: the `$…$` strings; their meaning is carried by Definition.IdentifierRoundTrip |
| Definition.Find | src/definition.rs:60-73 | a found profile is listed and displays as the text; otherwise none listed does |
| Definition.KnownProfile | src/definition.rs:60-73 | finds the known variant displaying as the text, if there is one |
| Definition.FromNameKnown | src/definition.rs:27-50 | each known variant is found from its name part |
| Definition.KnownShowInjective | src/definition.rs:27-50 | distinct known variants display differently |
| Definition.ParseProfile | src/definition.rs:55-77 | fails with `UnmatchedPattern` iff the text does not match `PATTERN_PROFILE`; a success displays back as the text, and is `Other` iff no known variant displays as it |
| Definition.KnownUrn | src/definition.rs:27-50 | each known profile string is a URN |
| Definition.ProfileRoundTrip | src/definition.rs:27-77 | every profile in canonical form parses back from its display |
| Definition.ShowProfile | src/definition.rs:26-50 | no contract: the serialize strings, and the text of `Other`; their meaning is carried by Definition.ProfileRoundTrip, Definition.KnownShowInjective and Definition.KnownUrn |
| Definition.ProfileExampleFull | src/definition.rs:111-115 | the full:2011 URN parses to `Full` |
| Definition.ProfileExampleUrl | src/definition.rs:117-119 | "https://example.com" parses to `Other` of itself |
| Definition.ProfileListIsOther | src/definition.rs:59-73 | a comma list of two known URNs parses to `Other` of itself |
| Scheme.AllListed | src/scheme.rs:8-25 | the 15 variants are all listed |
| Scheme.ParseScheme | src/scheme.rs:31-47 | a success displays back as the input; it fails iff no variant displays as it, with `InvalidData("Unsupported profile uri.")` |
| Scheme.FifthChar | src/scheme.rs:54-70 | the twelve MPEG variants and only they display with "urn:m" |
| Scheme.ShowInjective | src/scheme.rs:54-70 | distinct variants display differently |
| Scheme.SchemeRoundTrip | src/scheme.rs:27-73 | `from_str(fmt(p)) == p` for all 15 variants |
| Scheme.ShowScheme | src/scheme.rs:52-73 | no contract: the fifteen URIs; their meaning is carried by Scheme.SchemeRoundTrip and Scheme.ShowInjective |
| Scheme.DefaultIsFull | src/scheme.rs:8-10 | the default variant is `Full`, displayed as the full:2011 URN |
| Scheme.IndustryProfilesAreOther | src/scheme.rs:54-70 | the 3GPP, DVB and HbbTV strings parse as `Other` in the open profile enum |
| Scheme.IndustryUrns | src/scheme.rs:54-70 | the 3GPP, DVB and HbbTV strings are URNs |
| Builders.Optional | src/element.rs:19-20 | a `strip_option` setter never leaves `Some(None)`, and building reads back the payload |
| Element.BuildUIntVWithID | src/element.rs:144-171 | builds iff `@id` is set; unset slots take their defaults |
| Element.UIntVWithIDRebuild | src/element.rs:144-171 | every value is rebuilt from its builder |
| Element.UIntVWithIDExamples | src/element.rs:892-896 | builds with an id and not without |
| Element.BuildDescriptor | src/element.rs:240-267 | builds iff `@schemeIdUri` is set |
| Element.DescriptorRebuild | src/element.rs:240-267 | every descriptor is rebuilt |
| Element.DescriptorExamples | src/element.rs:929-936 | builds with a scheme and not without |
| Element.BuildContentProtection | src/element.rs:269-283 | always builds; an unset descriptor takes the default descriptor |
| Element.ContentProtectionKeepsBothReferences | src/element.rs:269-283 | `@ref` and `@refId` may both be set |
| Element.ContentProtectionRebuild | src/element.rs:269-283 | every content protection is rebuilt from its own slots |
| Element.ValidateMetrics | src/element.rs:201-211 | passes iff `@metrics` is set and `Reporting` is set and non-empty; `@metrics` is checked first |
| Element.BuildMetrics | src/element.rs:184-211 | builds under that rule, copying both fields |
| Element.MetricsRebuild | src/element.rs:184-211 | a value is rebuilt iff its reporting list is non-empty |
| Element.MetricsExamples | src/element.rs:898-918 | builds with both and not with either missing |
| Element.BuildLeapSecondInformation | src/element.rs:213-238 | builds iff the availability start leap offset is set |
| Element.LeapSecondInformationRebuild | src/element.rs:213-238 | every value is rebuilt |
| Element.LeapSecondInformationExamples | src/element.rs:920-927 | builds with an offset of either sign and not without |
| Element.BuildEventStream | src/element.rs:302-334 | builds iff `@schemeIdUri` is set |
| Element.EventStreamRebuild | src/element.rs:302-334 | every value is rebuilt |
| Element.EventStreamExamples | src/element.rs:938-945 | builds with a scheme and not without |
| Element.BuildSwitching | src/element.rs:336-358 | builds iff `@interval` is set |
| Element.SwitchingRebuild | src/element.rs:336-358 | every value is rebuilt |
| Element.SwitchingExamples | src/element.rs:947-951 | builds with an interval and not without |
| Element.BuildRandomAccess | src/element.rs:360-386 | builds iff `@interval` is set |
| Element.RandomAccessRebuild | src/element.rs:360-386 | every value is rebuilt |
| Element.RandomAccessExamples | src/element.rs:953-960 | builds with an interval and not without |
| Element.ValidateProducerReferenceTime | src/element.rs:424-445 | fails first if `@id`, `@wallClockTime` or `@presentationTime` is unset, then iff the type is `application` without a scheme |
| Element.BuildProducerReferenceTime | src/element.rs:400-445 | builds under that rule, copying the required fields |
| Element.ProducerReferenceTimeRebuild | src/element.rs:400-445 | a value is rebuilt iff an `application` type has a scheme |
| Element.ProducerReferenceTimeSchemeOneWay | src/element.rs:431-440 | a type other than `application` builds with or without a scheme |
| Element.ProducerReferenceTimeExamples | src/element.rs:962-986 | the builds the tests expect to pass and fail |
| Element.ValidatePopularityRate | src/element.rs:464-477 | passes iff the rate is set and in 1..=100, with a distinct message for unset |
| Element.BuildPopularityRate | src/element.rs:447-477 | builds under that rule |
| Element.PopularityRateRebuild | src/element.rs:447-477 | a value is rebuilt iff its rate is in 1..=100 |
| Element.PopularityRateExamples | src/element.rs:988-999 | 1 and 100 build; unset, 0 and 101 are refused |
| Element.ValidateContentPopularityRate | src/element.rs:495-509 | passes iff `@source` is set and the rate list is set and non-empty, `@source` first |
| Element.BuildContentPopularityRate | src/element.rs:479-509 | builds under that rule |
| Element.ContentPopularityRateRebuild | src/element.rs:479-509 | a value is rebuilt iff its rate list is non-empty |
| Element.ContentPopularityRateExamples | src/element.rs:1001-1021 | builds with both and not with either missing |
| Element.BuildModelPair | src/element.rs:547-568 | builds iff buffer time and bandwidth are both set |
| Element.ModelPairRebuild | src/element.rs:547-568 | every value is rebuilt |
| Element.ModelPairExamples | src/element.rs:1023-1039 | builds with both and not with either missing |
| Element.BuildServiceDescription | src/element.rs:660-690 | builds iff `@id` is set |
| Element.ServiceDescriptionRebuild | src/element.rs:660-690 | every value is rebuilt |
| Element.ServiceDescriptionExamples | src/element.rs:1041-1048 | builds with an id and not without |
| Element.BuildSubset | src/element.rs:692-714 | builds iff `@contains` is set, even when empty |
| Element.SubsetRebuild | src/element.rs:692-714 | every value is rebuilt |
| Element.SubsetExamples | src/element.rs:1050-1055 | builds with a list, empty or not, and not without |
| Element.BuildPreselection | src/element.rs:716-814 | builds iff the preselection components are set |
| Element.PreselectionRebuild | src/element.rs:716-814 | every value is rebuilt |
| Element.PreselectionExamples | src/element.rs:1057-1065 | builds with components and not without |
| Element.BuildFcs | src/element.rs:826-848 | builds iff `@t` is set |
| Element.FcsRebuild | src/element.rs:826-848 | every value is rebuilt |
| Element.FcsExamples | src/element.rs:1067-1071 | builds with a start time, 0 included, and not without |
| Element.BuildFailoverContent | src/element.rs:850-872 | builds iff the `FCS` list is set and non-empty |
| Element.FailoverContentRebuild | src/element.rs:850-872 | a value is rebuilt iff its list is non-empty |
| Element.FailoverContentExamples | src/element.rs:1073-1081 | builds with one entry; unset and empty lists are refused |
| Segments.BuildSegment | src/element/segment.rs:162-194 | builds iff the duration is set and at least 1, with "Segment duration must be set longer than 0" otherwise |
| Segments.SegmentRebuild | src/element/segment.rs:162-194 | a value is rebuilt iff its duration is not 0 |
| Segments.SegmentOtherSlotsFree | src/element/segment.rs:171-194 | `@t`, `@n`, `@k` and `@r` never make a build fail |
| Segments.SegmentExamples | src/element/segment.rs:202-206 | a duration of 1 builds; unset and 0 are refused |
| Segments.AddSegment | src/element/segment.rs:148-151 | `segment(s)` appends `s` after the collected entries |
| Segments.AddSegments | src/element/segment.rs:153-159 | `segments(xs)` appends all of `xs` in order |
| Segments.BuildSegmentTimeline | src/element/segment.rs:138-145 | always builds, with the collected entries, or none if untouched |
| Segments.TimelineOfThree | src/element/segment.rs:208-231 | `segments([s1, s2]).segment(s3)` builds `[s1, s2, s3]` |
| Segments.SegmentTimelineRebuild | src/element/segment.rs:138-160 | every timeline is rebuilt by `segments` of its entries |
| Segments.BuildSegmentBase | src/element/segment.rs:8-38 | always builds, copying every slot |
| Segments.SegmentBaseRebuild | src/element/segment.rs:8-38 | every segment base is rebuilt from its own slots |
| Segments.BuildSegmentList | src/element/segment.rs:40-86 | always builds, copying every slot |
| Segments.SegmentListRebuild | src/element/segment.rs:40-86 | every segment list is rebuilt from its own slots |
| Segments.BuildSegmentTemplate | src/element/segment.rs:88-136 | always builds, copying every slot, with `@startNumber` above `@endNumber` allowed |
| Segments.SegmentTemplateRebuild | src/element/segment.rs:88-136 | every segment template is rebuilt from its own slots |
| Repr.BuildSubRepresentation | src/element/repr.rs:201-209 | fails iff `@level` is set and `@bandwidth` is not |
| Repr.SubRepresentationRebuild | src/element/repr.rs:120-209 | a value is rebuilt iff a level comes with a bandwidth |
| Repr.SubRepresentationExamples | src/element/repr.rs:227-239 | the empty builder builds; a level alone does not |
| Repr.BuildRepresentation | src/element/repr.rs:110-118 | builds iff `@id` and `@bandwidth` are set |
| Repr.RepresentationRebuild | src/element/repr.rs:10-118 | every value is rebuilt |
| Repr.RepresentationAllAddressing | src/element/repr.rs:102-118 | base, list and template together still build |
| Repr.RepresentationExamples | src/element/repr.rs:217-225 | builds with both fields and not with either missing |
| Mpd.ValidateMpd | src/element/mpd.rs:98-119 | passes iff the profiles are set and non-empty and a dynamic type has both time stamps; profiles are checked first |
| Mpd.BuildMpd | src/element/mpd.rs:11-119 | builds under that rule; unset namespaces take their defaults |
| Mpd.MpdRebuild | src/element/mpd.rs:11-119 | a value is rebuilt iff it has a profile and, if dynamic, both time stamps; an absent namespace comes back as its default, so a value with all three namespaces set comes back unchanged |
| Mpd.ProfilesCheckedFirst | src/element/mpd.rs:100-106 | missing or empty profiles give the profiles message whatever the type |
| Mpd.StaticNeedsNoTimes | src/element/mpd.rs:98-119 | unless the type is dynamic, neither time stamp nor `@minBufferTime` is needed |
| Mpd.MpdDefaults | src/element/mpd.rs:19-39 | unset `xmlns`, `xmlns:xsi` and `xsi:schemaLocation` take the MPD namespace, the XML Schema instance URL and [namespace, "DASH-MPD.xsd"] |
| Mpd.MpdExamples | src/element/mpd.rs:126-161 | the manifests the tests build and refuse |

## Left out

- XML serialisation and deserialisation (serde, quick_xml), with all field renames and the XML round-trip tests. This is a foreign engine.
- The regular-expression engine and its lazy compilation (src/macros.rs). The patterns are written as recognisers instead.
- `XsDuration` and `XsInteger` wrap foreign parsers (iso8601, num's `BigInt`). `XsDuration` is opaque; `@r` of `S` is an unbounded `int`.
- chrono date-times (`XsDateTime`) are opaque. Only their presence matters to the validators.
- `f32` and `f64` fields (playback rates, `@ttl`, availability time offsets, …) are dropped: floating point.
- Types the element files use but no modelled file defines (`Ratio`, `Codecs`, `XsLanguage`, `NoWhitespace`, `SingleByteRange`, `ContentType`, …) are opaque values. Exceptions:
  - `ListOfProfiles` is a sequence of profiles.
  - `XsAnyURI` is a string.
  - `PresentationType` and `ProducerReferenceTimeType` take the values ISO/IEC 23009-1 gives them.
- Fields that no validator reads are omitted from the records of `Preselection`, `Representation`, `SubRepresentation` and `MPD`, or folded into one opaque `common` slot. The build rules do not depend on them.
- The segment records keep every field except the `f64` `@availabilityTimeOffset`. Their `Url` elements, `@indexRange` and `@timeShiftBufferDepth` are opaque.
- `Latency`, `PlaybackRate`, `OperatingQuality` and `OperatingBandwidth` inside `ServiceDescription` are opaque. They have no validator, so their builds cannot fail; only `PlaybackRate` has floating-point fields.
- src/element/adapt.rs and src/element/period.rs have no validator. Their builds always succeed like the segment-addressing builders.
- The URL-template substitution in src/definition.rs is test-only code over a regex replacement.
- src/common.rs repeats the whitespace split and join of `WhitespaceSeparatedList`. src/lib.rs is module wiring. The examples do file I/O.
- Unicode white space: the White_Space property and the category Z are written out in `Chars` as literal lists of code points, taken from the current Unicode tables. They are not derived from the Unicode Character Database.
- Types.AspectRatioFrom: the gcd is computed by Euclid's algorithm rather than the binary algorithm of the `num` crate. Both give the same value, and the contract is stated in terms of divisibility.
- The list example "TSET MJPG H264 VP80" is covered by Types.ListRoundTrip and Types.FourCCExample, not by a separate lemma.
