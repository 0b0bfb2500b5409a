/** The lexical patterns of the schema (entity.rs), written as recognisers
    over text instead of regular expressions. Every pattern here is used
    anchored (`^…$`), so each predicate says whether the whole text
    matches. Where a recogniser decides a pattern by scanning, a
    declarative reading of the pattern is given next to it, with a lemma
    that the two agree. */
module Entity {
  import opened Chars
  import opened Strings
  import opened Decimal
  import Types

  // ---------------------------------------------------------------------
  // Character classes

  /** `[A-Za-z0-9\-]`: the class of `CHARSET`, `ID_SIMPLE` and the parts of
      a URN. */
  predicate IsAlnumDash(c: char) {
    IsAsciiAlnum(c) || c == '-'
  }

  /** `[A-Za-z0-9.\-]`: the class of `ID_ENCODED`. */
  predicate IsIdEncodedChar(c: char) {
    IsAlnumDash(c) || c == '.'
  }

  /** `[A-Za-z_]`: the first character of an `NC_NAME`. */
  predicate IsNameStart(c: char) {
    IsAsciiAlpha(c) || c == '_'
  }

  /** `[A-Za-z0-9_\-\.]`: the later characters of an `NC_NAME`. */
  predicate IsNameChar(c: char) {
    IsAsciiAlnum(c) || c == '_' || c == '-' || c == '.'
  }

  /** `[a-zA-Z0-9\-._~:/?#\[@\]!$&'()*+,;=]`: the body of a `URL`. */
  predicate IsUrlChar(c: char) {
    || IsAlnumDash(c) || c == '.' || c == '_' || c == '~' || c == ':' || c == '/'
    || c == '?' || c == '#' || c == '[' || c == '@' || c == ']' || c == '!' || c == '$'
    || c == '&' || c == '\'' || c == '(' || c == ')' || c == '*' || c == '+' || c == ','
    || c == ';' || c == '='
  }

  /** One or more characters of the class `p`: the pattern `[…]+`. */
  predicate Word(s: string, p: char -> bool) {
    |s| > 0 && forall c | c in s :: p(c)
  }

  // ---------------------------------------------------------------------
  // INTEGER, NC_NAME, NO_WHITESPACE

  /** `PATTERN_INTEGER`, `^[\-\+]?[0-9]+$`: one optional sign, then at least
      one ASCII digit. */
  predicate MatchesInteger(s: string) {
    var digits := if |s| > 0 && (s[0] == '+' || s[0] == '-') then s[1..] else s;
    |digits| > 0 && AllDigits(digits)
  }

  /** The text `parse::<uN>()` accepts is the `INTEGER` text without a
      leading '-'. */
  lemma IntegerIsUnsignedText(s: string)
    ensures IsUnsignedText(s) <==> MatchesInteger(s) && s[0] != '-'
  {
    if |s| > 0 {
      assert s[0] in s;
    }
  }

  /** Every number the decimal parser accepts is written as an `INTEGER`. */
  lemma ParsedIsInteger(s: string, limit: nat)
    requires limit > 0 && ParseUnsigned(s, limit).Ok?
    ensures MatchesInteger(s)
  {
    ParseUnsignedSpec(s, limit);
    IntegerIsUnsignedText(s);
  }

  /** `PATTERN_NC_NAME`, `^[A-Za-z_][A-Za-z0-9_\-\.]*$`. */
  predicate MatchesNcName(s: string) {
    |s| > 0 && IsNameStart(s[0]) && forall c | c in s[1..] :: IsNameChar(c)
  }

  /** An NCName has no colon, and each of its non-empty prefixes is one. */
  lemma NcNamePrefixes(s: string, n: nat)
    requires MatchesNcName(s) && 0 < n <= |s|
    ensures ':' !in s
    ensures MatchesNcName(s[..n])
  {
    assert s == [s[0]] + s[1..];
    assert s[..n][1..] == s[1..n];
    forall c | c in s[1..n] ensures IsNameChar(c) {
      var k :| 0 <= k < n - 1 && s[1..n][k] == c;
      assert s[1..][k] == c;
    }
  }

  /** NCName characters may be appended to an NCName. */
  lemma NcNameExtend(s: string, t: string)
    requires MatchesNcName(s) && forall c | c in t :: IsNameChar(c)
    ensures MatchesNcName(s + t)
  {
    assert (s + t)[1..] == s[1..] + t;
  }

  /** `PATTERN_NO_WHITESPACE`, `^[^\r\n\t \p{Z}]*$`. */
  predicate MatchesNoWhitespace(s: string) {
    forall c | c in s :: IsNoWhitespaceChar(c)
  }

  /** The pattern matches the empty text and is the very check
      `StringNoWhitespace::from_str` makes. */
  lemma NoWhitespaceAgrees(s: string)
    ensures MatchesNoWhitespace("")
    ensures MatchesNoWhitespace(s) <==> Types.ParseStringNoWhitespace(s).Ok?
  {
  }

  // ---------------------------------------------------------------------
  // LANGUAGE

  predicate IsPrimaryTag(t: string) {
    1 <= |t| <= 8 && forall c | c in t :: IsAsciiAlpha(c)
  }

  predicate IsSubtag(t: string) {
    1 <= |t| <= 8 && forall c | c in t :: IsAsciiAlnum(c)
  }

  /** `PATTERN_LANG`, `^[a-zA-Z]{1,8}(-[a-zA-Z0-9]{1,8})*$`, decided on the
      '-'-separated pieces, since neither class contains '-'. */
  predicate MatchesLanguage(s: string) {
    var parts := Split(s, '-');
    IsPrimaryTag(parts[0]) && forall i | 1 <= i < |parts| :: IsSubtag(parts[i])
  }

  /** The declarative reading: a primary tag and subtags joined by '-'. */
  ghost predicate IsLanguageTag(s: string) {
    exists primary, subtags ::
      IsPrimaryTag(primary) && (forall t | t in subtags :: IsSubtag(t))
      && s == Join([primary] + subtags, "-")
  }

  lemma LanguageAgrees(s: string)
    ensures MatchesLanguage(s) <==> IsLanguageTag(s)
  {
    var parts := Split(s, '-');
    if MatchesLanguage(s) {
      JoinSplit(s, '-');
      var subtags := parts[1..];
      assert [parts[0]] + subtags == parts;
      forall t | t in subtags ensures IsSubtag(t) {
        var i :| 0 <= i < |subtags| && subtags[i] == t;
        assert parts[i + 1] == t;
      }
      assert IsLanguageTag(s);
    }
    if IsLanguageTag(s) {
      var primary, subtags :| IsPrimaryTag(primary) && (forall t | t in subtags :: IsSubtag(t))
        && s == Join([primary] + subtags, "-");
      var ps := [primary] + subtags;
      forall p | p in ps ensures '-' !in p {
        if p == primary {
        } else {
          assert p in subtags;
        }
      }
      SplitJoin(ps, '-');
      assert parts == ps;
      forall i | 1 <= i < |parts| ensures IsSubtag(parts[i]) {
        assert parts[i] == subtags[i - 1];
      }
    }
  }

  // ---------------------------------------------------------------------
  // PATTERN_SIMPLE and PATTERN_FANCY

  /** `ID(?:,\s*ID)*` for an id class `p` that holds neither ',' nor white
      space: the first ','-separated piece is an id, and every later piece is
      an id after its leading white space. */
  predicate IsIdList(s: string, p: char -> bool) {
    var parts := Split(s, ',');
    Word(parts[0], p) && forall i | 1 <= i < |parts| :: Word(TrimStart(parts[i]), p)
  }

  /** `PATTERN_SIMPLE`, `^ID_SIMPLE(?:,\s*ID_SIMPLE)*$`. */
  predicate MatchesSimple(s: string) {
    IsIdList(s, IsAlnumDash)
  }

  /** `PATTERN_FANCY`, `^(?:CHARSET'LANGUAGE')?ID_ENCODED(?:,\s*ID_ENCODED)*$`.
      None of the three classes holds a quote, so the text has either no
      quote and no prefix, or exactly two quotes around the language. */
  predicate MatchesFancy(s: string) {
    var parts := Split(s, '\'');
    || (|parts| == 1 && IsIdList(s, IsIdEncodedChar))
    || (|parts| == 3 && Word(parts[0], IsAlnumDash) && MatchesLanguage(parts[1])
        && IsIdList(parts[2], IsIdEncodedChar))
  }

  /** Every character of a list of ids is a ',', white space or of the id
      class. */
  lemma IdListChars(s: string, p: char -> bool, c: char)
    requires IsIdList(s, p) && c in s
    ensures c == ',' || IsWhitespace(c) || p(c)
  {
    var parts := Split(s, ',');
    JoinSplit(s, ',');
    JoinChars(parts, ",", c);
    if c != ',' {
      var q :| q in parts && c in q;
      var i :| 0 <= i < |parts| && parts[i] == q;
      if i > 0 {
        TrimmedChar(q, p, c);
      }
    }
  }

  /** A character of a piece whose trimmed rest is an id is white space or
      of the id class. */
  lemma TrimmedChar(q: string, p: char -> bool, c: char)
    requires Word(TrimStart(q), p) && c in q
    ensures IsWhitespace(c) || p(c)
  {
    var t := TrimStart(q);
    var k :| 0 <= k < |q| && q[k] == c;
    if k >= |q| - |t| {
      assert t[k - (|q| - |t|)] == c;
    }
  }

  /** A list of ids over a class without quotes holds no quote. */
  lemma IdListHasNoQuote(s: string, p: char -> bool)
    requires forall c | p(c) :: c != '\''
    requires IsIdList(s, p)
    ensures '\'' !in s
  {
    forall c | c in s ensures c != '\'' {
      IdListChars(s, p, c);
    }
  }

  /** Every character of a language tag is a '-' or an ASCII letter or
      digit. */
  lemma LanguageChars(s: string, c: char)
    requires MatchesLanguage(s) && c in s
    ensures c == '-' || IsAsciiAlnum(c)
  {
    var parts := Split(s, '-');
    JoinSplit(s, '-');
    JoinChars(parts, "-", c);
    if c != '-' {
      var q :| q in parts && c in q;
      var i :| 0 <= i < |parts| && parts[i] == q;
    }
  }

  /** The same text is a list of ids over any larger class. */
  lemma IdListWiden(s: string, p: char -> bool, q: char -> bool)
    requires forall c | p(c) :: q(c)
    requires IsIdList(s, p)
    ensures IsIdList(s, q)
  {
  }

  /** Every `PATTERN_SIMPLE` text matches `PATTERN_FANCY`: the simple id
      class is part of the encoded one and the prefix is optional. */
  lemma SimpleIsFancy(s: string)
    requires MatchesSimple(s)
    ensures MatchesFancy(s)
  {
    IdListHasNoQuote(s, IsAlnumDash);
    IdListWiden(s, IsAlnumDash, IsIdEncodedChar);
  }

  /** The declarative reading of `PATTERN_FANCY`'s prefix: a charset and a
      language in quotes before the codec list. */
  lemma FancyWithPrefix(charset: string, language: string, codecs: string)
    requires Word(charset, IsAlnumDash) && MatchesLanguage(language)
    requires IsIdList(codecs, IsIdEncodedChar)
    ensures MatchesFancy(charset + "'" + language + "'" + codecs)
  {
    assert '\'' !in charset;
    IdListHasNoQuote(codecs, IsIdEncodedChar);
    forall c | c in language ensures c != '\'' {
      LanguageChars(language, c);
    }
    var s := charset + "'" + language + "'" + codecs;
    assert s == charset + ['\''] + (language + ['\''] + codecs);
    SplitAt(charset, '\'', language + ['\''] + codecs);
    SplitAt(language, '\'', codecs);
  }

  // ---------------------------------------------------------------------
  // URN, URL and PATTERN_PROFILE

  /** `URN`, `urn:[a-zA-Z0-9\-]+(:[a-zA-Z0-9\-]+)*`: after "urn:", one or
      more non-empty ':'-separated parts. */
  predicate IsUrn(s: string) {
    |s| >= 4 && s[..4] == "urn:"
    && forall p | p in Split(s[4..], ':') :: Word(p, IsAlnumDash)
  }

  /** `URL`, `https?://` followed by one or more URL characters. */
  predicate IsUrl(s: string) {
    || (|s| > 7 && s[..7] == "http://" && forall c | c in s[7..] :: IsUrlChar(c))
    || (|s| > 8 && s[..8] == "https://" && forall c | c in s[8..] :: IsUrlChar(c))
  }

  predicate IsProfileItem(s: string) {
    IsUrn(s) || IsUrl(s)
  }

  /** The declarative reading of `PATTERN_PROFILE`,
      `^(URN|URL)((,(URN|URL))*)$`: the text is one or more URNs or URLs
      joined by ','. */
  ghost predicate IsProfileList(s: string) {
    exists items: seq<string> ::
      |items| >= 1 && (forall it | it in items :: IsProfileItem(it)) && s == Join(items, ",")
  }

  /** The recogniser for `PATTERN_PROFILE`. A URN holds no ',', so a URN item
      ends at the next ','. A URL may hold ',' and every character of every
      item, so once a URL starts the match succeeds exactly when the rest of
      the text is URL characters. */
  predicate ScanProfile(s: string)
    decreases |s|
  {
    if |s| >= 4 && s[..4] == "urn:" then
      if ',' !in s then IsUrn(s)
      else
        var i := IndexOf(s, ',');
        IsUrn(s[..i]) && ScanProfile(s[i + 1..])
    else IsUrl(s)
  }

  /** Every character of a URN or a URL is a URL character, and a URN holds
      no ','. */
  lemma ItemChars(s: string)
    requires IsProfileItem(s)
    ensures forall c | c in s :: IsUrlChar(c)
    ensures IsUrn(s) ==> ',' !in s
  {
    if IsUrn(s) {
      var rest := s[4..];
      assert s == "urn:" + rest;
      JoinSplit(rest, ':');
      forall c | c in rest ensures IsUrlChar(c) && c != ',' {
        JoinChars(Split(rest, ':'), ":", c);
      }
    } else if |s| > 7 && s[..7] == "http://" {
      assert s == "http://" + s[7..];
    } else {
      assert s == "https://" + s[8..];
    }
  }

  lemma ProfileListOf(s: string, items: seq<string>)
    requires |items| >= 1 && (forall it | it in items :: IsProfileItem(it)) && s == Join(items, ",")
    ensures IsProfileList(s)
  {
  }

  /** A URN item, a ',' and a profile list make a profile list. */
  lemma ProfileListCons(first: string, rest: string)
    requires IsUrn(first) && IsProfileList(rest)
    ensures IsProfileList(first + "," + rest)
  {
    var items :| |items| >= 1 && (forall it | it in items :: IsProfileItem(it))
      && rest == Join(items, ",");
    var all := [first] + items;
    assert all[1..] == items;
    assert forall it | it in all :: IsProfileItem(it);
    ProfileListOf(first + "," + rest, all);
  }

  /** One step of the recogniser over a URN item followed by ','. */
  lemma ScanUrnStep(s: string, i: nat)
    requires ScanProfile(s) && |s| >= 4 && s[..4] == "urn:" && ',' in s && i == IndexOf(s, ',')
    ensures IsUrn(s[..i]) && ScanProfile(s[i + 1..])
    ensures s == s[..i] + "," + s[i + 1..]
  {
    Around(s, i);
  }

  /** The recogniser's last item, with no ',' after it. */
  lemma ScanLast(s: string)
    requires ScanProfile(s) && !(|s| >= 4 && s[..4] == "urn:" && ',' in s)
    ensures IsProfileItem(s)
  {
  }

  lemma ScanSound(s: string)
    requires ScanProfile(s)
    ensures IsProfileList(s)
    decreases |s|
  {
    if |s| >= 4 && s[..4] == "urn:" && ',' in s {
      var i := IndexOf(s, ',');
      ScanUrnStep(s, i);
      ScanSound(s[i + 1..]);
      ProfileListCons(s[..i], s[i + 1..]);
    } else {
      ScanLast(s);
      ProfileListOf(s, [s]);
    }
  }

  lemma {:induction false} ScanComplete(items: seq<string>)
    requires |items| >= 1 && forall it | it in items :: IsProfileItem(it)
    ensures ScanProfile(Join(items, ","))
    decreases |items|
  {
    var s := Join(items, ",");
    var first := items[0];
    assert first in items;
    ItemChars(first);
    if |items| == 1 {
      assert s == first;
      if IsUrn(first) {
      } else {
        assert first[..4] != "urn:" by {
          if |first| > 7 && first[..7] == "http://" {
            assert first[..4][0] == 'h';
          } else {
            assert first[..4][0] == 'h';
          }
        }
      }
    } else {
      var rest := Join(items[1..], ",");
      assert s == first + "," + rest;
      if IsUrn(first) {
        assert s[..4] == first[..4];
        assert s[|first|] == ',';
        var i := IndexOf(s, ',');
        assert s[..|first|] == first;
        assert i == |first|;
        assert s[i + 1..] == rest;
        forall it | it in items[1..] ensures IsProfileItem(it) {
          assert it in items;
        }
        ScanComplete(items[1..]);
      } else {
        UrlAbsorbsRest(items, first, rest);
      }
    }
  }

  /** A URL item followed by more items: the URL's body runs to the end. */
  lemma UrlAbsorbsRest(items: seq<string>, first: string, rest: string)
    requires |items| >= 2 && forall it | it in items :: IsProfileItem(it)
    requires first == items[0] && rest == Join(items[1..], ",") && IsUrl(first)
    ensures ScanProfile(first + "," + rest)
  {
    var s := first + "," + rest;
    forall c | c in rest ensures IsUrlChar(c) {
      JoinChars(items[1..], ",", c);
      if c != ',' {
        var q :| q in items[1..] && c in q;
        assert q in items;
        ItemChars(q);
      }
    }
    if |first| > 7 && first[..7] == "http://" {
      assert s[..7] == first[..7];
      assert s[..4][0] == 'h';
      assert s[7..] == first[7..] + "," + rest;
      forall c | c in s[7..] ensures IsUrlChar(c) {
        assert c in first[7..] || c == ',' || c in rest;
      }
    } else {
      assert s[..8] == first[..8];
      assert s[..4][0] == 'h';
      assert s[8..] == first[8..] + "," + rest;
      forall c | c in s[8..] ensures IsUrlChar(c) {
        assert c in first[8..] || c == ',' || c in rest;
      }
    }
  }

  /** `PATTERN_PROFILE`. */
  predicate MatchesProfile(s: string) {
    ScanProfile(s)
  }

  /** The recogniser decides exactly the declarative reading. */
  lemma ProfileAgrees(s: string)
    ensures MatchesProfile(s) <==> IsProfileList(s)
  {
    if MatchesProfile(s) {
      ScanSound(s);
    }
    if IsProfileList(s) {
      var items :| |items| >= 1 && (forall it | it in items :: IsProfileItem(it))
        && s == Join(items, ",");
      ScanComplete(items);
    }
  }

  /** A URN is a whole profile list. */
  lemma UrnMatchesProfile(s: string)
    requires IsUrn(s)
    ensures MatchesProfile(s)
  {
    assert IsProfileItem(s);
    ItemChars(s);
  }

  /** A URL is a whole profile list. */
  lemma UrlMatchesProfile(s: string)
    requires IsUrl(s)
    ensures MatchesProfile(s)
  {
    assert s[..4][0] == 'h';
  }

  /** A URN extended with one more ':'-separated part. */
  lemma UrnExtend(s: string, part: string)
    requires IsUrn(s) && Word(part, IsAlnumDash)
    ensures IsUrn(s + ":" + part)
  {
    var t := s + ":" + part;
    assert t[..4] == s[..4];
    assert t[4..] == s[4..] + ":" + part;
    JoinSplit(s[4..], ':');
    var parts := Split(s[4..], ':') + [part];
    forall p | p in parts ensures ':' !in p {
    }
    assert Join(parts, ":") == t[4..] by {
      JoinAppend(Split(s[4..], ':'), ":", part);
    }
    SplitJoin(parts, ':');
  }

  lemma {:induction false} JoinAppend(parts: seq<string>, sep: string, last: string)
    requires |parts| >= 1
    ensures Join(parts + [last], sep) == Join(parts, sep) + sep + last
    decreases |parts|
  {
    if |parts| > 1 {
      assert (parts + [last])[1..] == parts[1..] + [last];
      JoinAppend(parts[1..], sep, last);
    }
  }

  /** "urn:" and one part is a URN. */
  lemma UrnStart(part: string)
    requires Word(part, IsAlnumDash)
    ensures IsUrn("urn:" + part)
  {
    var s := "urn:" + part;
    assert s[4..] == part;
  }
}
