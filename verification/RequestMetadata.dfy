/** What is read out of the Accept-Language header and the reported timezone. */
module RequestMetadata {
  import opened Text

  /** A segment in the case its position and length call for. */
  function Cased(segment: string, first: bool): (r: string)
    ensures |r| == |segment|
  {
    if first then Lower(segment)
    else if |segment| == 2 || |segment| == 3 then Upper(segment)
    else if |segment| == 4 then Upper(segment[..1]) + Lower(segment[1..])
    else Lower(segment)
  }

  /** The tag between spaces, without its parameters. */
  function BareTag(raw: string): string {
    Trim(Before(Trim(raw), ';'))
  }

  function CasedSegments(segments: seq<string>): (r: seq<string>)
    ensures |r| == |segments|
  {
    seq(|segments|, i requires 0 <= i < |segments| => Cased(Trim(segments[i]), i == 0))
  }

  function NormalizeTag(raw: string): string {
    var tag := BareTag(raw);
    var segments := Split(tag, '-');
    if tag == "" || tag == "*" || exists i :: 0 <= i < |segments| && Trim(segments[i]) == "" then ""
    else Join(CasedSegments(segments), '-')
  }

  method NormalizeLanguageTag(raw: string) returns (r: string)
    ensures r == NormalizeTag(raw)
  {
    var tag := Trim(raw);
    TrimFacts("");
    if tag == "" {
      return "";
    }
    tag := Before(tag, ';');
    tag := Trim(tag);
    if tag == "" || tag == "*" {
      return "";
    }
    var original := Split(tag, '-');
    var segments := original;
    for i := 0 to |segments|
      invariant |segments| == |original|
      invariant forall j :: 0 <= j < i ==> Trim(original[j]) != "" && segments[j] == CasedSegments(original)[j]
      invariant forall j :: i <= j < |original| ==> segments[j] == original[j]
    {
      var segment := Trim(segments[i]);
      if segment == "" {
        return "";
      }
      if i == 0 {
        segments := segments[i := Lower(segment)];
      } else if |segment| == 2 || |segment| == 3 {
        segments := segments[i := Upper(segment)];
      } else if |segment| == 4 {
        segments := segments[i := Upper(segment[..1]) + Lower(segment[1..])];
      } else {
        segments := segments[i := Lower(segment)];
      }
    }
    assert segments == CasedSegments(original);
    return Join(segments, '-');
  }

  lemma FourLetters(segment: string)
    requires |segment| == 4
    ensures var r := Cased(segment, false);
            r[0] == UpperChar(segment[0]) && forall i :: 1 <= i < 4 ==> r[i] == LowerChar(segment[i])
  {
    assert Upper(segment[..1])[0] == UpperChar(segment[0]);
    var tail := Lower(segment[1..]);
    assert tail[0] == LowerChar(segment[1]) && tail[1] == LowerChar(segment[2]) && tail[2] == LowerChar(segment[3]);
  }

  lemma CasedIsCased(segment: string, first: bool)
    ensures Cased(Cased(segment, first), first) == Cased(segment, first)
    ensures forall i :: 0 <= i < |segment| ==>
      Cased(segment, first)[i] == UpperChar(segment[i]) || Cased(segment, first)[i] == LowerChar(segment[i])
  {
    CaseFacts(segment);
    if |segment| == 4 && !first {
      FourLetters(segment);
      FourLetters(Cased(segment, false));
    }
  }

  lemma CasedFacts(segment: string, first: bool)
    ensures Cased(Cased(segment, first), first) == Cased(segment, first)
    ensures Trimmed(segment) ==> Trimmed(Cased(segment, first))
    ensures forall c :: c in Cased(segment, first) && c in {'-', ';', '*'} ==> c in segment
  {
    CasedIsCased(segment, first);
    forall c | c in Cased(segment, first) && c in {'-', ';', '*'}
      ensures c in segment
    {
      var i :| 0 <= i < |segment| && Cased(segment, first)[i] == c;
      assert segment[i] == c;
    }
  }

  /** The case of a segment, letter by letter: the first in lower case; later ones of two or three letters
      in upper case, of four with a capital, all others in lower case. */
  lemma CaseOfSegment(segment: string, first: bool)
    ensures |Cased(segment, first)| == |segment|
    ensures forall i :: 0 <= i < |segment| ==>
      Cased(segment, first)[i] ==
        if !first && (|segment| == 2 || |segment| == 3 || (|segment| == 4 && i == 0)) then UpperChar(segment[i])
        else LowerChar(segment[i])
  {
    if |segment| == 4 && !first { FourLetters(segment); }
  }

  /** The segments of a normalised tag: cased, trimmed, not empty, free of separators. */
  lemma SegmentFacts(tag: string)
    requires forall i :: 0 <= i < |Split(tag, '-')| ==> Trim(Split(tag, '-')[i]) != ""
    requires ';' !in tag
    ensures var cased := CasedSegments(Split(tag, '-'));
            && (forall s :: s in cased ==> s != "" && Trimmed(s) && '-' !in s && ';' !in s)
            && CasedSegments(cased) == cased
  {
    var parts := Split(tag, '-');
    var cased := CasedSegments(parts);
    PiecesHaveNoSeparator(tag, '-');
    forall i | 0 <= i < |cased|
      ensures cased[i] != "" && Trimmed(cased[i]) && '-' !in cased[i] && ';' !in cased[i]
      ensures CasedSegments(cased)[i] == cased[i]
    {
      assert parts[i] in parts;
      var segment := Trim(parts[i]);
      TrimFacts(parts[i]);
      CasedFacts(segment, i == 0);
      TrimFacts(cased[i]);
    }
  }

  lemma {:induction false} JoinFacts(parts: seq<string>, c: char)
    requires parts != [] && forall p :: p in parts ==> p != "" && Trimmed(p)
    requires !IsSpace(c)
    ensures var r := Join(parts, c);
            && Trimmed(r) && r != ""
            && (forall x :: x in r ==> x == c || exists p :: p in parts && x in p)
            && (|parts| > 1 ==> c in r)
  {
    if |parts| > 1 {
      assert parts[0] in parts && forall p :: p in parts[1..] ==> p in parts;
      JoinFacts(parts[1..], c);
      var rest := Join(parts[1..], c);
      var r := Join(parts, c);
      assert r == parts[0] + [c] + rest;
      assert r[0] == parts[0][0] && r[|r| - 1] == rest[|rest| - 1];
      assert r[|parts[0]|] == c;
      forall x | x in r && x != c
        ensures exists p :: p in parts && x in p
      {
        if x in rest {
          var p :| p in parts[1..] && x in p;
          assert p in parts;
        } else {
          assert x in parts[0] && parts[0] in parts;
        }
      }
    }
  }

  /** Normalising a language tag is idempotent, through split and join. */
  lemma NormalizeTagIdempotent(raw: string)
    ensures NormalizeTag(NormalizeTag(raw)) == NormalizeTag(raw)
  {
    hide TrimLeft, TrimRight, Split, Join;
    var tag := BareTag(raw);
    var r := NormalizeTag(raw);
    if r == "" {
      EmptyTag();
    } else {
      TrimFacts(raw);
      TrimFacts(Before(Trim(raw), ';'));
      var cased := CasedSegments(Split(tag, '-'));
      SegmentFacts(tag);
      JoinFacts(cased, '-');
      SplitJoin(cased, '-');
      assert ';' !in r;
      TrimFacts(r);
      assert BareTag(r) == r;
      NotAStar(tag, cased);
      forall i | 0 <= i < |cased|
        ensures Trim(cased[i]) != ""
      {
        assert cased[i] in cased;
        TrimFacts(cased[i]);
      }
    }
  }

  lemma EmptyTag()
    ensures NormalizeTag("") == ""
  {
    TrimFacts("");
  }

  lemma NotAStar(tag: string, cased: seq<string>)
    requires tag != "*" && Trimmed(tag) && cased == CasedSegments(Split(tag, '-'))
    ensures Join(cased, '-') != "*"
  {
    if |cased| == 1 {
      JoinSplit(tag, '-');
      TrimFacts(tag);
      CasedFacts(tag, true);
    } else {
      var r := cased[0] + ['-'] + Join(cased[1..], '-');
      assert Join(cased, '-') == r && r[|cased[0]|] == '-';
      assert '-' in r && '-' !in "*";
    }
  }

  /** Reading back a tag written between spaces, with or without parameters: its segments, cased. */
  lemma TagReadBack(lead: string, segments: seq<string>, trail: string, parameters: string)
    requires Blank(lead) && Blank(trail) && (parameters == "" || parameters[0] == ';') && segments != [] && segments != ["*"]
    requires forall s :: s in segments ==> s != "" && Trimmed(s) && '-' !in s && ';' !in s
    ensures var r := Split(NormalizeTag(lead + Join(segments, '-') + trail + parameters), '-');
            |r| == |segments| && forall i :: 0 <= i < |r| ==> r[i] == Cased(segments[i], i == 0)
  {
    hide TrimLeft, TrimRight, Split, Join, Before, Cased;
    var tag := Join(segments, '-');
    JoinFacts(segments, '-');
    BareTagReadBack(lead, tag, trail, parameters);
    SplitJoin(segments, '-');
    forall i | 0 <= i < |segments|
      ensures Trim(segments[i]) == segments[i] != ""
    {
      assert segments[i] in segments;
      TrimFacts(segments[i]);
    }
    OnlyStar(segments);
    SegmentFacts(tag);
    var cased := CasedSegments(segments);
    SplitJoin(cased, '-');
  }

  lemma OnlyStar(segments: seq<string>)
    requires segments != [] && forall s :: s in segments ==> s != "" && '-' !in s
    ensures Join(segments, '-') == "*" <==> segments == ["*"]
  {
    SplitJoin(segments, '-');
    assert Join(["*"], '-') == "*";
    if Join(segments, '-') == "*" {
      assert Before("*", '-') == "*";
    }
  }

  lemma BareTagReadBack(lead: string, tag: string, trail: string, parameters: string)
    requires Blank(lead) && Blank(trail) && (parameters == "" || parameters[0] == ';') && Trimmed(tag) && tag != "" && ';' !in tag
    ensures BareTag(lead + tag + trail + parameters) == tag
  {
    hide TrimLeft, TrimRight, Before;
    var core := tag + trail + parameters;
    assert lead + tag + trail + parameters == lead + core;
    TrimFacts(tag);
    if parameters == "" {
      assert lead + core == lead + tag + trail;
      TrimIgnoresBlanks(lead, tag, trail);
      BeforeFirst(tag, "", ';');
      assert tag + "" == tag;
    } else {
      TrimIgnoresBlanks(lead, core, "");
      assert lead + core + "" == lead + core;
      CutParameters(tag, trail, parameters);
      TrimIgnoresBlanks("", tag, trail);
      assert "" + tag + trail == tag + trail;
    }
  }

  lemma CutParameters(tag: string, trail: string, parameters: string)
    requires Blank(trail) && parameters != "" && parameters[0] == ';' && Trimmed(tag) && tag != "" && ';' !in tag
    ensures Before(Trim(tag + trail + parameters), ';') == tag + trail
  {
    var core, k := tag + trail + parameters, |tag + trail|;
    assert core[0] == tag[0] && core[k] == ';';
    assert TrimLeft(core) == core;
    hide TrimLeft, TrimRight;
    TrimRightKeeps(core, k);
    var r := Trim(core);
    assert ';' !in trail;
    assert r == (tag + trail) + r[k..] && r[k..][0] == ';';
    BeforeFirst(tag + trail, r[k..], ';');
  }

  datatype Languages = Languages(tags: seq<string>, primaryTag: string, primaryBase: string, primaryRegion: string)

  const NO_LANGUAGES := Languages([], "", "", "")

  function NormalizeTags(parts: seq<string>): (r: seq<string>)
    ensures |r| == |parts|
  {
    seq(|parts|, i requires 0 <= i < |parts| => NormalizeTag(parts[i]))
  }

  /** The first segment that looks like a region, upper-cased. */
  function Region(segments: seq<string>): string {
    if segments == [] then ""
    else if |segments[0]| == 2 || |segments[0]| == 3 then Upper(segments[0])
    else Region(segments[1..])
  }

  /** The region is the first segment of two or three letters, in upper case, if there is one. */
  lemma {:induction false} RegionIsFirst(segments: seq<string>, i: nat)
    requires i <= |segments| && forall j :: 0 <= j < i ==> |segments[j]| != 2 && |segments[j]| != 3
    ensures i == |segments| ==> Region(segments) == ""
    ensures i < |segments| && 2 <= |segments[i]| <= 3 ==> Region(segments) == Upper(segments[i])
  {
    if i > 0 {
      RegionIsFirst(segments[1..], i - 1);
    }
  }

  method ApplyAcceptLanguageDetails(header: string) returns (r: Languages)
    ensures r.tags == if Trim(header) == "" then [] else Distinct(NormalizeTags(Split(Trim(header), ',')))
    ensures r.tags == [] ==> r == NO_LANGUAGES
    ensures r.tags != [] ==>
      var segments := Split(r.tags[0], '-');
      r.primaryTag == r.tags[0] && r.primaryBase == Lower(segments[0]) && r.primaryRegion == Region(segments[1..])
  {
    r := NO_LANGUAGES;
    var raw := Trim(header);
    if raw == "" {
      return;
    }
    var parts := Split(raw, ',');
    var tags: seq<string> := [];
    for i := 0 to |parts|
      invariant tags == Distinct(NormalizeTags(parts)[..i])
    {
      var tag := NormalizeLanguageTag(parts[i]);
      assert NormalizeTags(parts)[..i + 1][..i] == NormalizeTags(parts)[..i];
      if tag == "" {
        continue;
      }
      if tag !in tags {
        tags := tags + [tag];
      }
    }
    assert NormalizeTags(parts)[..|parts|] == NormalizeTags(parts);
    if |tags| == 0 {
      return;
    }
    var segments := Split(tags[0], '-');
    r := Languages(tags, tags[0], Lower(segments[0]), "");
    for i := 1 to |segments|
      invariant r == Languages(tags, tags[0], Lower(segments[0]), "")
      invariant Region(segments[1..]) == Region(segments[i..])
    {
      assert segments[i..][1..] == segments[i + 1..];
      if |segments[i]| == 2 || |segments[i]| == 3 {
        return r.(primaryRegion := Upper(segments[i]));
      }
    }
  }

  /** The tags are normalised, without duplicates, in the order the header first names them; the base
      is the primary tag's first segment as it stands. */
  lemma LanguageFacts(raw: string)
    ensures var all := NormalizeTags(Split(raw, ','));
            var tags := Distinct(all);
            && (forall t :: t in tags <==> t != "" && t in all)
            && (forall i, j :: 0 <= i < j < |tags| ==> tags[i] != tags[j])
            && (forall i, j :: 0 <= i < j < |tags| ==> FirstIndex(all, tags[i]) < FirstIndex(all, tags[j]))
            && (forall t :: t in tags ==> NormalizeTag(t) == t && Lower(Split(t, '-')[0]) == Split(t, '-')[0])
  {
    var parts := Split(raw, ',');
    var all := NormalizeTags(parts);
    DistinctFacts(all);
    forall t | t in Distinct(all)
      ensures NormalizeTag(t) == t && Lower(Split(t, '-')[0]) == Split(t, '-')[0]
    {
      var i :| 0 <= i < |all| && all[i] == t;
      NormalizeTagIdempotent(parts[i]);
      BaseIsLower(parts[i]);
    }
  }

  lemma BaseIsLower(raw: string)
    requires NormalizeTag(raw) != ""
    ensures Lower(Split(NormalizeTag(raw), '-')[0]) == Split(NormalizeTag(raw), '-')[0]
  {
    var tag := BareTag(raw);
    var cased := CasedSegments(Split(tag, '-'));
    TrimFacts(Before(Trim(raw), ';'));
    SegmentFacts(tag);
    SplitJoin(cased, '-');
    CaseFacts(Trim(Split(tag, '-')[0]));
  }

  datatype Zone = Zone(area: string, location: string)

  function ZoneOf(timezone: string): Zone {
    var name := Trim(timezone);
    if name == "" then Zone("", "")
    else
      var parts := Split(name, '/');
      Zone(parts[0], if |parts| > 1 then Join(parts[1..], '/') else "")
  }

  method ApplyTimezoneDetails(timezone: string) returns (zone: Zone)
    ensures zone == ZoneOf(timezone)
    ensures zone.area + "/" + zone.location == Trim(timezone) <==> '/' in Trim(timezone)
    ensures '/' !in Trim(timezone) ==> zone == Zone(Trim(timezone), "")
    ensures '/' !in zone.area
  {
    ZoneRebuildsName(timezone);
    hide Split, Join, TrimLeft, TrimRight;
    zone := Zone("", "");
    var name := Trim(timezone);
    if name == "" {
      return;
    }
    var parts := Split(name, '/');
    zone := zone.(area := parts[0]);
    if |parts| > 1 {
      zone := zone.(location := Join(parts[1..], '/'));
    }
  }

  /** Area and location rebuild the trimmed name exactly when it has a slash; otherwise the name is the
      area. */
  lemma ZoneRebuildsName(timezone: string)
    ensures var name, zone := Trim(timezone), ZoneOf(timezone);
            && (zone.area + "/" + zone.location == name <==> '/' in name)
            && ('/' !in name ==> zone == Zone(name, ""))
            && '/' !in zone.area
  {
    var name := Trim(timezone);
    if name != "" {
      JoinSplit(name, '/');
      PiecesHaveNoSeparator(name, '/');
      var parts := Split(name, '/');
      assert parts[0] in parts;
      if |parts| > 1 {
        assert name == parts[0] + ['/'] + Join(parts[1..], '/');
        assert name[|parts[0]|] == '/';
      }
    }
  }
}
