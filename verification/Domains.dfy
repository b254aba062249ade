/** Parsing of the allowed domains and of the origins allowed per site. */
module Domains {
  import opened Options
  import opened Text

  function NormalizeDomain(v: string): string {
    var lowered := Trim(Lower(v));
    var bare := TrimPrefix(TrimPrefix(lowered, "http://"), "https://");
    Trim(Before(Before(bare, '/'), ':'))
  }

  predicate IsUpper(c: char) {
    'A' <= c <= 'Z'
  }

  /** What a normalised domain looks like. */
  predicate Normal(d: string) {
    Trimmed(d) && '/' !in d && ':' !in d && NoUpper(d)
  }

  predicate NoUpper(s: string) {
    forall i :: 0 <= i < |s| ==> !IsUpper(s[i])
  }

  lemma PrefixStripped(s: string, prefix: string)
    requires NoUpper(s)
    ensures NoUpper(TrimPrefix(s, prefix))
  {
  }

  lemma TrimKeepsNormal(s: string)
    requires NoUpper(s)
    ensures NoUpper(Trim(s)) && Trimmed(Trim(s))
    ensures '/' !in s && ':' !in s ==> '/' !in Trim(s) && ':' !in Trim(s)
  {
    TrimFacts(s);
    forall i | 0 <= i < |Trim(s)|
      ensures !IsUpper(Trim(s)[i])
    {
      assert Trim(s)[i] in s;
    }
  }

  lemma NormalizeYieldsNormal(v: string)
    ensures Normal(NormalizeDomain(v))
  {
    var lowered := Trim(Lower(v));
    assert NoUpper(Lower(v));
    TrimKeepsNormal(Lower(v));
    PrefixStripped(lowered, "http://");
    PrefixStripped(TrimPrefix(lowered, "http://"), "https://");
    CutKeepsNormal(TrimPrefix(TrimPrefix(lowered, "http://"), "https://"));
  }

  lemma CutKeepsNormal(bare: string)
    requires NoUpper(bare)
    ensures Normal(Trim(Before(Before(bare, '/'), ':')))
  {
    var host := Before(bare, '/');
    var name := Before(host, ':');
    assert name <= host <= bare;
    TrimKeepsNormal(name);
  }

  lemma NormalIsFixed(d: string)
    requires Normal(d)
    ensures NormalizeDomain(d) == d
  {
    assert Lower(d) == d;
    TrimFacts(d);
    PrefixHasSlash(d, "http://", 5);
    PrefixHasSlash(d, "https://", 6);
  }

  lemma PrefixHasSlash(d: string, prefix: string, i: nat)
    requires i < |prefix| && prefix[i] == '/'
    ensures prefix <= d ==> '/' in d
  {
    if prefix <= d {
      assert d[i] == '/';
    }
  }

  /** Normalising is idempotent, and its fixed points are exactly the normal domains. */
  lemma NormalizeIdempotent(v: string)
    ensures NormalizeDomain(NormalizeDomain(v)) == NormalizeDomain(v)
    ensures NormalizeDomain(v) == v <==> Normal(v)
  {
    NormalizeYieldsNormal(v);
    NormalIsFixed(NormalizeDomain(v));
    if Normal(v) { NormalIsFixed(v); }
  }

  /** `v` names the host `h`: in any case, between spaces, with or without a scheme, and followed by
      nothing, a port or a path. What could be read as a host called "http" followed by a port is taken as
      the scheme, as it is when normalising. */
  ghost predicate Spelling(v: string, h: string, lead: string, core: string, trail: string, scheme: string, tail: string) {
    && v == lead + core + trail && Blank(lead) && Blank(trail)
    && Lower(core) == scheme + h + tail
    && scheme in {"", "http://", "https://"}
    && Normal(h) && h != ""
    && (tail == "" || tail[0] == '/' || tail[0] == ':')
    && ("://" <= tail ==> !(h == "http" && scheme == "") && !(h == "https" && scheme != "https://"))
  }

  ghost predicate Names(v: string, h: string) {
    exists lead, core, trail, scheme, tail :: Spelling(v, h, lead, core, trail, scheme, tail)
  }

  lemma LowerOfParts(a: string, b: string, c: string)
    ensures Lower(a + b + c) == Lower(a) + Lower(b) + Lower(c)
  {
  }

  lemma BlankLower(s: string)
    requires Blank(s)
    ensures Lower(s) == s
  {
    forall i | 0 <= i < |s|
      ensures LowerChar(s[i]) == s[i]
    {
    }
  }

  /** Cutting a host off what follows it. */
  lemma HostCut(h: string, tail: string)
    requires Normal(h) && (tail == "" || tail[0] == '/' || tail[0] == ':')
    ensures Trim(Before(Before(h + tail, '/'), ':')) == h
  {
    var path := Before(tail, '/');
    TrimFacts(h);
    BeforeJoins(h, tail);
    assert path == "" || path[0] == ':';
    BeforeFirst(h, path, ':');
  }

  lemma {:induction false} BeforeJoins(h: string, tail: string)
    requires '/' !in h
    ensures Before(h + tail, '/') == h + Before(tail, '/')
  {
    if h == "" {
      assert h + tail == tail && h + Before(tail, '/') == Before(tail, '/');
    } else {
      var s := h + tail;
      assert s[0] == h[0] && s[1..] == h[1..] + tail;
      BeforeStep(s, '/');
      hide Before;
      BeforeJoins(h[1..], tail);
      assert h + Before(tail, '/') == [h[0]] + (h[1..] + Before(tail, '/'));
    }
  }

  lemma BeforeStep(s: string, c: char)
    ensures s != "" && s[0] != c ==> Before(s, c) == [s[0]] + Before(s[1..], c)
  {
  }

  /** A scheme starts a host and its tail only when the host is named like it. */
  lemma SchemeStarts(name: string, h: string, tail: string)
    requires ':' !in h && '/' !in h && name in {"http", "https"} && (tail == "" || tail[0] == '/' || tail[0] == ':')
    ensures name + "://" <= h + tail <==> h == name && "://" <= tail
  {
    var s, n := h + tail, |name|;
    assert forall i :: 0 <= i < |h| ==> s[i] == h[i];
    assert |h| < |s| ==> s[|h|] == tail[0];
    assert s[|h|..] == tail;
    if name + "://" <= s {
      assert s[n] == ':' && s[n + 1] == '/' && s[n + 2] == '/';
      assert forall i :: 0 <= i < n ==> s[i] == name[i] != ':' && name[i] != '/';
      assert |h| == n;
      assert h == name && tail == s[n..];
    }
    if h == name && "://" <= tail {
      assert s == name + "://" + tail[3..];
    }
  }

  /** After the scheme, if there is one, comes the host. */
  lemma SchemeStripped(scheme: string, h: string, tail: string)
    requires Normal(h) && h != "" && scheme in {"", "http://", "https://"}
    requires tail == "" || tail[0] == '/' || tail[0] == ':'
    requires "://" <= tail ==> !(h == "http" && scheme == "") && !(h == "https" && scheme != "https://")
    ensures TrimPrefix(TrimPrefix(scheme + h + tail, "http://"), "https://") == h + tail
  {
    SchemeStarts("http", h, tail);
    SchemeStarts("https", h, tail);
    assert "http" + "://" == "http://" && "https" + "://" == "https://";
    var s := h + tail;
    assert scheme + h + tail == scheme + s;
    if scheme == "" {
      assert scheme + s == s;
    } else if scheme == "http://" {
      assert ("http://" + s)[7..] == s;
    } else {
      assert ("https://" + s)[4] == 's' && ("https://" + s)[8..] == s;
    }
  }

  /** Spaces at the end of what follows a host do no harm. */
  lemma TrimmedSpelling(scheme: string, h: string, tail: string) returns (shorter: string)
    requires Normal(h) && h != "" && scheme in {"", "http://", "https://"}
    requires tail == "" || tail[0] == '/' || tail[0] == ':'
    ensures Trim(scheme + h + tail) == scheme + h + shorter
    ensures shorter <= tail && (shorter == "" <==> tail == "")
  {
    var s, k := scheme + h + tail, |scheme + h|;
    assert s[0] == (if scheme == "" then h[0] else 'h') && s[k - 1] == h[|h| - 1];
    assert TrimLeft(s) == s;
    hide TrimLeft, TrimRight;
    TrimRightKeeps(s, if tail == "" then k - 1 else k);
    shorter := Trim(s)[k..];
    assert s[..k] == scheme + h && s[k..] == tail;
  }

  /** Normalising finds the host, however it is spelled. */
  lemma NormalizeFindsHost(v: string, h: string)
    requires Names(v, h)
    ensures NormalizeDomain(v) == h
  {
    var lead, core, trail, scheme, tail :| Spelling(v, h, lead, core, trail, scheme, tail);
    LowerOfParts(lead, core, trail);
    BlankLower(lead);
    BlankLower(trail);
    TrimIgnoresBlanks(lead, Lower(core), trail);
    var shorter := TrimmedSpelling(scheme, h, tail);
    assert "://" <= shorter ==> "://" <= tail;
    SchemeStripped(scheme, h, shorter);
    HostCut(h, shorter);
  }

  lemma HostNotEmpty(v: string, h: string)
    requires Names(v, h)
    ensures h != ""
  {
  }

  function NormalizeAll(parts: seq<string>): (r: seq<string>)
    ensures |r| == |parts|
  {
    seq(|parts|, i requires 0 <= i < |parts| => NormalizeDomain(parts[i]))
  }

  /** The distinct domains of a comma-separated list. */
  function DomainsOf(raw: string): seq<string> {
    Distinct(NormalizeAll(Split(raw, ',')))
  }

  /** The error return of the original, for a domain with a slash in it, is never taken. */
  method ParseDomains(raw: string) returns (domains: seq<string>, known: set<string>)
    ensures domains == DomainsOf(raw)
    ensures known == set d | d in domains
  {
    var parts := Split(raw, ',');
    ghost var all := NormalizeAll(parts);
    domains, known := [], {};
    for i := 0 to |parts|
      invariant domains == Distinct(all[..i])
      invariant known == set d | d in domains
    {
      var domain := Normalized(parts[i]);
      DistinctStep(all, i);
      if domain == "" {
        continue;
      }
      if '/' in domain {
        assert false;
      }
      if domain in known {
        continue;
      }
      SetOfAppend(domains, domain);
      known := known + {domain};
      domains := domains + [domain];
    }
    assert all[..|parts|] == all;
  }

  lemma SetOfAppend(xs: seq<string>, x: string)
    ensures (set d | d in xs + [x]) == (set d | d in xs) + {x}
  {
  }

  method Normalized(v: string) returns (domain: string)
    ensures domain == NormalizeDomain(v) && '/' !in domain
  {
    NormalizeYieldsNormal(v);
    domain := NormalizeDomain(v);
  }

  /** The list holds each normalised non-empty entry once, in the order of first appearance. */
  lemma DomainsFacts(raw: string)
    ensures var all, domains := NormalizeAll(Split(raw, ',')), DomainsOf(raw);
            && (forall d :: d in domains <==> d != "" && d in all)
            && (forall i, j :: 0 <= i < j < |domains| ==> domains[i] != domains[j])
            && (forall i, j :: 0 <= i < j < |domains| ==> FirstIndex(all, domains[i]) < FirstIndex(all, domains[j]))
            && (forall d :: d in domains ==> Normal(d))
  {
    var parts := Split(raw, ',');
    var all := NormalizeAll(parts);
    DistinctFacts(all);
    forall d | d in all
      ensures Normal(d)
    {
      var i :| 0 <= i < |all| && all[i] == d;
      NormalizeYieldsNormal(parts[i]);
    }
  }

  /** Reading back a list of spellings gives the hosts they name. */
  lemma HostsReadBack(pieces: seq<string>, hosts: seq<string>)
    requires pieces != [] && |hosts| == |pieces|
    requires forall k :: 0 <= k < |pieces| ==> ',' !in pieces[k] && Names(pieces[k], hosts[k])
    ensures DomainsOf(Join(pieces, ',')) == Distinct(hosts)
  {
    SplitJoin(pieces, ',');
    forall k | 0 <= k < |hosts|
      ensures NormalizeAll(pieces)[k] == hosts[k]
    {
      NormalizeFindsHost(pieces[k], hosts[k]);
    }
    assert NormalizeAll(pieces) == hosts;
  }

  lemma DomainsMembers(raw: string, d: string)
    ensures d in DomainsOf(raw) <==> d != "" && d in NormalizeAll(Split(raw, ','))
  {
    DistinctFacts(NormalizeAll(Split(raw, ',')));
  }

  function ReplaceBars(s: string): (r: string)
    ensures |r| == |s|
  {
    seq(|s|, i requires 0 <= i < |s| => if s[i] == '|' then ',' else s[i])
  }

  /** One mapping `site:origin|origin`. */
  function SiteOf(mapping: string): string {
    Trim(Before(mapping, ':'))
  }

  /** What follows the site, with commas between the origins. */
  function OriginList(mapping: string): string
    requires ':' in mapping
  {
    ReplaceBars(mapping[|Before(mapping, ':')| + 1..])
  }

  function OriginsOf(mapping: string): seq<string>
    requires ':' in mapping
  {
    DomainsOf(OriginList(mapping))
  }

  lemma {:induction false} BarsBecomeCommas(pieces: seq<string>)
    requires pieces != [] && forall p :: p in pieces ==> '|' !in p
    ensures ReplaceBars(Join(pieces, '|')) == Join(pieces, ',')
  {
    if |pieces| > 1 {
      assert pieces[0] in pieces && forall p :: p in pieces[1..] ==> p in pieces;
      BarsBecomeCommas(pieces[1..]);
      assert ReplaceBars(pieces[0]) == pieces[0];
      ReplaceBarsOfParts(pieces[0], Join(pieces[1..], '|'));
    } else {
      assert pieces[0] in pieces && Join(pieces, '|') == pieces[0];
    }
  }

  lemma ReplaceBarsOfParts(first: string, rest: string)
    ensures ReplaceBars(first + "|" + rest) == ReplaceBars(first) + "," + ReplaceBars(rest)
  {
  }

  /** Reading back what was written: a site, a colon, and its origins between bars. */
  lemma MappingReadBack(lead: string, site: string, trail: string, pieces: seq<string>)
    requires Blank(lead) && Blank(trail) && Trimmed(site) && ':' !in site
    requires pieces != [] && forall p :: p in pieces ==> '|' !in p && ',' !in p
    ensures var mapping := lead + site + trail + ":" + Join(pieces, '|');
            ':' in mapping && SiteOf(mapping) == site && Split(OriginList(mapping), ',') == pieces
  {
    var name, rest := lead + site + trail, ":" + Join(pieces, '|');
    var mapping := name + ":" + Join(pieces, '|');
    assert mapping == name + rest && ':' !in lead && ':' !in trail;
    assert mapping[|name|] == ':';
    BeforeFirst(name, rest, ':');
    TrimIgnoresBlanks(lead, site, trail);
    TrimFacts(site);
    assert mapping[|name| + 1..] == Join(pieces, '|');
    BarsBecomeCommas(pieces);
    SplitJoin(pieces, ',');
  }

  /** Names a site and at least one origin for it. */
  predicate WellFormed(mapping: string) {
    ':' in mapping && SiteOf(mapping) != "" && OriginsOf(mapping) != []
  }

  /** The mappings between semicolons that are not blank. */
  function Mappings(raw: string): seq<string> {
    NotBlank(Split(raw, ';'))
  }

  function NotBlank(parts: seq<string>): seq<string> {
    if parts == [] then []
    else
      var front, last := NotBlank(parts[..|parts| - 1]), Trim(parts[|parts| - 1]);
      if last == "" then front else front + [last]
  }

  lemma {:induction false} NotBlankOfParts(a: seq<string>, b: seq<string>)
    ensures NotBlank(a + b) == NotBlank(a) + NotBlank(b)
    decreases |b|
  {
    if b == [] {
      assert a + b == a;
    } else {
      var n := |b| - 1;
      NotBlankOfParts(a, b[..n]);
      assert (a + b)[..|a + b| - 1] == a + b[..n];
    }
  }

  /** Reading back mappings written between semicolons: each is trimmed, and blank ones are dropped. */
  lemma MappingsReadBack(parts: seq<string>)
    requires parts != [] && forall p :: p in parts ==> ';' !in p
    ensures Mappings(Join(parts, ';')) == NotBlank([parts[0]]) + NotBlank(parts[1..])
    ensures forall p :: NotBlank([p]) == if Trim(p) == "" then [] else [Trim(p)]
  {
    SplitJoin(parts, ';');
    NotBlankOfParts([parts[0]], parts[1..]);
    assert [parts[0]] + parts[1..] == parts;
    forall p: string
      ensures NotBlank([p]) == if Trim(p) == "" then [] else [Trim(p)]
    {
      assert [p][..0] == [] && NotBlank([]) == [];
    }
  }

  predicate AllWellFormed(mappings: seq<string>) {
    forall i :: 0 <= i < |mappings| ==> WellFormed(mappings[i])
  }

  /** A later mapping for the same site replaces an earlier one. */
  function SiteTable(mappings: seq<string>): map<string, set<string>>
    requires AllWellFormed(mappings)
  {
    if mappings == [] then map[]
    else
      var last := mappings[|mappings| - 1];
      SiteTable(mappings[..|mappings| - 1])[SiteOf(last) := set o | o in OriginsOf(last)]
  }

  lemma SiteTableStep(mappings: seq<string>, mapping: string)
    requires AllWellFormed(mappings) && WellFormed(mapping)
    ensures AllWellFormed(mappings + [mapping])
    ensures SiteTable(mappings + [mapping]) == SiteTable(mappings)[SiteOf(mapping) := set o | o in OriginsOf(mapping)]
  {
    assert (mappings + [mapping])[..|mappings|] == mappings;
  }

  /** One mapping parsed: its site and origins, if it is well formed. */
  method ParseMapping(mapping: string) returns (ok: bool, site: string, allowed: set<string>)
    ensures ok <==> WellFormed(mapping)
    ensures ok ==> site == SiteOf(mapping) && allowed == set o | o in OriginsOf(mapping)
  {
    if ':' !in mapping {
      return false, "", {};
    }
    site := SiteOf(mapping);
    if site == "" {
      return false, "", {};
    }
    var origins;
    origins, allowed := ParseDomains(ReplaceBars(mapping[|Before(mapping, ':')| + 1..]));
    return |origins| != 0, site, allowed;
  }

  method ParseSiteOrigins(raw: string) returns (table: Option<map<string, set<string>>>)
    ensures table.Some? <==> AllWellFormed(Mappings(raw))
    ensures table.Some? ==> table.value == SiteTable(Mappings(raw))
  {
    if Trim(raw) == "" {
      BlankHasNoMappings(raw);
      return Some(map[]);
    }
    var parts := Split(raw, ';');
    var result: map<string, set<string>> := map[];
    for i := 0 to |parts|
      invariant AllWellFormed(NotBlank(parts[..i]))
      invariant result == SiteTable(NotBlank(parts[..i]))
    {
      var mapping := Trim(parts[i]);
      assert parts[..i + 1][..i] == parts[..i];
      if mapping == "" {
        continue;
      }
      var ok, site, allowed := ParseMapping(mapping);
      if !ok {
        NotBlankContains(parts, i);
        return None;
      }
      SiteTableStep(NotBlank(parts[..i]), mapping);
      result := result[site := allowed];
    }
    assert parts[..|parts|] == parts;
    return Some(result);
  }

  lemma {:induction false} NotBlankContains(parts: seq<string>, i: nat)
    requires i < |parts| && Trim(parts[i]) != ""
    ensures exists j :: 0 <= j < |NotBlank(parts)| && NotBlank(parts)[j] == Trim(parts[i])
    decreases |parts|
  {
    var n := |parts| - 1;
    if i < n {
      NotBlankContains(parts[..n], i);
      var j :| 0 <= j < |NotBlank(parts[..n])| && NotBlank(parts[..n])[j] == Trim(parts[..n][i]);
      assert NotBlank(parts)[j] == Trim(parts[i]);
    } else {
      assert NotBlank(parts)[|NotBlank(parts)| - 1] == Trim(parts[i]);
    }
  }

  lemma BlankHasNoMappings(raw: string)
    requires Trim(raw) == ""
    ensures Mappings(raw) == []
  {
    TrimLeftFacts(raw);
    TrimRightFacts(TrimLeft(raw));
    LeftTrimmedEmpty(raw);
    assert ';' !in raw;
    assert Split(raw, ';') == [raw];
    assert [raw][..0] == [] && NotBlank([]) == [];
  }

  lemma {:induction false} LeftTrimmedEmpty(s: string)
    requires TrimLeft(s) == ""
    ensures forall c :: c in s ==> IsSpace(c)
  {
    if s != "" {
      LeftTrimmedEmpty(s[1..]);
      assert s == [s[0]] + s[1..];
    }
  }

  /** The last mapping that names the site, or -1. */
  function LastNaming(mappings: seq<string>, site: string): (i: int)
    ensures -1 <= i < |mappings|
    ensures i >= 0 ==> SiteOf(mappings[i]) == site
    ensures forall j :: i < j < |mappings| ==> SiteOf(mappings[j]) != site
  {
    if mappings == [] then -1
    else if SiteOf(mappings[|mappings| - 1]) == site then |mappings| - 1
    else LastNaming(mappings[..|mappings| - 1], site)
  }

  lemma SetNotEmpty(xs: seq<string>)
    requires xs != []
    ensures (set x | x in xs) != {}
  {
    var s := set x | x in xs;
    assert xs[0] in s;
  }

  /** A site is in the table exactly when some mapping names it, with the origins of the last one that
      does, of which there is at least one. */
  lemma {:induction false} SiteTableFacts(mappings: seq<string>, site: string)
    requires AllWellFormed(mappings)
    ensures var i := LastNaming(mappings, site);
            && (site in SiteTable(mappings) <==> i >= 0)
            && (i >= 0 ==> SiteTable(mappings)[site] == (set o | o in OriginsOf(mappings[i])) != {})
    decreases |mappings|
  {
    if mappings != [] {
      var front, last := mappings[..|mappings| - 1], mappings[|mappings| - 1];
      if SiteOf(last) == site {
        SetNotEmpty(OriginsOf(last));
      } else {
        SiteTableFacts(front, site);
        assert LastNaming(mappings, site) == LastNaming(front, site);
        assert site in SiteTable(mappings) <==> site in SiteTable(front);
      }
    }
  }
}
