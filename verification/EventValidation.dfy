/** The field limits and the validation an event passes before it is admitted. URL parsing and the
    time zone database are parameters; nothing is assumed of either. */
module EventValidation {
  import opened Options
  import Payload
  import Text

  /** A parsed URL. `rest` is what neither truncation nor validation touches: an opaque part, the
      raw forms of path and fragment. */
  datatype Url = Url(scheme: string, host: string, path: string, user: Option<string>,
                     rawQuery: string, forceQuery: bool, fragment: string, rest: seq<string>)

  datatype UrlLibrary = UrlLibrary(parse: string -> Option<Url>, render: Url -> string, escapedPath: Url -> string)

  datatype Limits = Limits(maxFieldLength: int, maxPayloadEntries: int, maxPayloadDepth: int)

  /** The fields of an event that limits and validation look at. */
  datatype Fields = Fields(kind: string, siteID: string, sessionID: string, anonymousID: string, userID: Option<string>,
                           path: string, title: string, url: string, referrer: string,
                           timezone: string, timezoneOffset: Option<int>,
                           payload: Option<map<string, Payload.Value>>)

  /** A URL without query, fragment and credentials. */
  function Stripped(u: Url): Url {
    u.(rawQuery := "", forceQuery := false, fragment := "", user := None)
  }

  function PrefixOf(u: Url): string {
    (if u.scheme != "" then u.scheme + "://" else "") + u.host
  }

  function PathOf(lib: UrlLibrary, u: Url): string {
    if lib.escapedPath(u) == "" then u.path else lib.escapedPath(u)
  }

  function TruncateUrl(lib: UrlLibrary, raw: string, max: int): string {
    if max <= 0 || |raw| <= max then raw
    else if lib.parse(raw).None? then ""
    else
      var bare := Stripped(lib.parse(raw).value);
      var candidate := lib.render(bare);
      if |candidate| <= max then candidate
      else if |PrefixOf(bare)| >= max then ""
      else PrefixOf(bare) + Payload.TruncateString(PathOf(lib, bare), max - |PrefixOf(bare)|)
  }

  /** Whatever the URL library does: the result fits, a URL that fits is left alone, and truncating
      again changes nothing. */
  lemma TruncatedUrlFits(lib: UrlLibrary, raw: string, max: int)
    requires max > 0
    ensures var r := TruncateUrl(lib, raw, max);
            && |r| <= max
            && (|raw| <= max ==> r == raw)
            && TruncateUrl(lib, r, max) == r
  {
  }

  /** What becomes of an over-long URL: nothing if it cannot be parsed; its bare form if that fits; else
      as much of the path as fits behind scheme and host, or nothing if they leave no room. */
  lemma TruncatedUrlIs(lib: UrlLibrary, raw: string, max: int)
    requires 0 < max < |raw|
    ensures var r := TruncateUrl(lib, raw, max);
            match lib.parse(raw)
            case None => r == ""
            case Some(u) =>
              var bare := Url(u.scheme, u.host, u.path, None, "", false, "", u.rest);
              var front := if u.scheme == "" then u.host else u.scheme + "://" + u.host;
              var path := if lib.escapedPath(bare) != "" then lib.escapedPath(bare) else u.path;
              && (|lib.render(bare)| <= max ==> r == lib.render(bare))
              && (|lib.render(bare)| > max && |front| >= max ==> r == "")
              && (|lib.render(bare)| > max && |front| < max ==>
                    front <= r && r[|front|..] <= path
                    && (r == front + path || |r| == max))
  {
  }

  /** Over-long URLs that differ only in query, fragment or credentials end up the same, so
      none of the three can survive truncation. */
  lemma TruncationForgets(lib: UrlLibrary, raw: string, other: string, max: int)
    requires 0 < max < |raw| && max < |other|
    requires lib.parse(raw).Some? && lib.parse(other).Some?
    requires Stripped(lib.parse(raw).value) == Stripped(lib.parse(other).value)
    ensures TruncateUrl(lib, raw, max) == TruncateUrl(lib, other, max)
  {
  }

  function TruncateOption(s: Option<string>, max: int): Option<string> {
    if s.None? then None else Some(Payload.TruncateString(s.value, max))
  }

  /** The event after its limits were applied. */
  function Limited(lib: UrlLibrary, max: int, e: Fields): Fields {
    Fields(e.kind, e.siteID,
           Payload.TruncateString(e.sessionID, max),
           Payload.TruncateString(e.anonymousID, max),
           TruncateOption(e.userID, max),
           Payload.TruncateString(e.path, max),
           Payload.TruncateString(e.title, max),
           TruncateUrl(lib, e.url, max),
           TruncateUrl(lib, e.referrer, max),
           e.timezone, e.timezoneOffset,
           Payload.TruncatePayload(e.payload, max))
  }

  predicate IdentifierChar(c: char) {
    'a' <= c <= 'z' || 'A' <= c <= 'Z' || '0' <= c <= '9' || c in "_.:-"
  }

  const MAX_IDENTIFIER := 128

  predicate IsIdentifier(s: string) {
    1 <= |s| <= MAX_IDENTIFIER && forall i :: 0 <= i < |s| ==> IdentifierChar(s[i])
  }

  const MAX_OFFSET := 840

  /** Parses, and is either relative or a web address. */
  predicate IsWebUrl(lib: UrlLibrary, raw: string) {
    lib.parse(raw).Some? && lib.parse(raw).value.scheme in ["", "http", "https"]
  }

  /** The checks of a validation, in the order in which they are made. */
  datatype Check = Kind | Site | Identifiers | User | PathAndTitle | PageUrl | ReferrerUrl | Zone | Body {
    function Rank(): nat {
      match this
      case Kind => 0
      case Site => 1
      case Identifiers => 2
      case User => 3
      case PathAndTitle => 4
      case PageUrl => 5
      case ReferrerUrl => 6
      case Zone => 7
      case Body => 8
    }
  }

  predicate UrlFieldPasses(lib: UrlLibrary, raw: string, max: int) {
    raw == "" || (|raw| <= max && IsWebUrl(lib, raw))
  }

  predicate ZonePasses(zones: string -> bool, name: string, offset: Option<int>) {
    && (Text.Trim(name) == "" || zones(Text.Trim(name)))
    && (offset.Some? ==> -MAX_OFFSET <= offset.value <= MAX_OFFSET)
  }

  /** What each check asks for. */
  ghost predicate Passes(check: Check, lib: UrlLibrary, zones: string -> bool, limits: Limits, e: Fields) {
    var max := limits.maxFieldLength;
    match check
    case Kind => IsIdentifier(Text.Trim(e.kind))
    case Site => IsIdentifier(Text.Trim(e.siteID))
    case Identifiers => |e.sessionID| <= max && |e.anonymousID| <= max
    case User => e.userID.Some? ==> |e.userID.value| <= max
    case PathAndTitle => |e.path| <= max && |e.title| <= max
    case PageUrl => UrlFieldPasses(lib, e.url, max)
    case ReferrerUrl => UrlFieldPasses(lib, e.referrer, max)
    case Zone => ZonePasses(zones, e.timezone, e.timezoneOffset)
    case Body => Payload.PayloadPasses(e.payload, limits.maxPayloadEntries, limits.maxPayloadDepth, max)
  }

  ghost predicate AllPass(lib: UrlLibrary, zones: string -> bool, limits: Limits, e: Fields) {
    && Passes(Kind, lib, zones, limits, e) && Passes(Site, lib, zones, limits, e)
    && Passes(Identifiers, lib, zones, limits, e) && Passes(User, lib, zones, limits, e)
    && Passes(PathAndTitle, lib, zones, limits, e) && Passes(PageUrl, lib, zones, limits, e)
    && Passes(ReferrerUrl, lib, zones, limits, e) && Passes(Zone, lib, zones, limits, e)
    && Passes(Body, lib, zones, limits, e)
  }

  lemma IdentifierMeans(s: string)
    ensures IsIdentifier(s) <==>
      1 <= |s| <= 128 && forall i :: 0 <= i < |s| ==>
        || 48 <= s[i] as int <= 57 || 65 <= s[i] as int <= 90 || 97 <= s[i] as int <= 122
        || s[i] == '_' || s[i] == '.' || s[i] == ':' || s[i] == '-'
  {
  }

  lemma UrlFieldMeans(lib: UrlLibrary, raw: string, max: int)
    ensures UrlFieldPasses(lib, raw, max) <==>
      || raw == ""
      || (|raw| <= max && lib.parse(raw).Some?
          && (lib.parse(raw).value.scheme == "" || lib.parse(raw).value.scheme == "http" || lib.parse(raw).value.scheme == "https"))
  {
  }

  /** What each check asks of which field, spelled out. */
  lemma PassesMeans(check: Check, lib: UrlLibrary, zones: string -> bool, limits: Limits, e: Fields)
    ensures var max, passes := limits.maxFieldLength, Passes(check, lib, zones, limits, e);
            && (check.Kind? ==> (passes <==> IsIdentifier(Text.Trim(e.kind))))
            && (check.Site? ==> (passes <==> IsIdentifier(Text.Trim(e.siteID))))
            && (check.Identifiers? ==> (passes <==> |e.sessionID| <= max && |e.anonymousID| <= max))
            && (check.User? ==> (passes <==> (e.userID.Some? ==> |e.userID.value| <= max)))
            && (check.PathAndTitle? ==> (passes <==> |e.path| <= max && |e.title| <= max))
            && (check.PageUrl? ==> (passes <==> UrlFieldPasses(lib, e.url, max)))
            && (check.ReferrerUrl? ==> (passes <==> UrlFieldPasses(lib, e.referrer, max)))
            && (check.Zone? ==> (passes <==>
                 && (Text.Trim(e.timezone) == "" || zones(Text.Trim(e.timezone)))
                 && (e.timezoneOffset.None? || -840 <= e.timezoneOffset.value <= 840)))
            && (check.Body? && e.payload.None? ==> passes)
            && (check.Body? && e.payload.Some? ==>
                 var v := Payload.Object(e.payload.value);
                 passes <==> Payload.Legal(v, limits.maxPayloadDepth, max) && Payload.Entries(v) <= limits.maxPayloadEntries)
  {
    hide IsIdentifier, Text.Trim, UrlFieldPasses, Payload.Legal, Payload.Entries;
  }

  /** In which order the checks are made. */
  lemma CheckOrder()
    ensures Kind.Rank() < Site.Rank() < Identifiers.Rank() < User.Rank() < PathAndTitle.Rank()
    ensures PathAndTitle.Rank() < PageUrl.Rank() < ReferrerUrl.Rank() < Zone.Rank() < Body.Rank()
  {
  }

  /** Of the first `n` checks, the one named fails and those before it pass; or all of them do. */
  ghost predicate IsFirstFailure(failed: Option<Check>, n: nat, lib: UrlLibrary, zones: string -> bool, limits: Limits, e: Fields) {
    && (failed.Some? ==> failed.value.Rank() < n && !Passes(failed.value, lib, zones, limits, e))
    && forall check: Check :: check.Rank() < (if failed.Some? then failed.value.Rank() else n) ==> Passes(check, lib, zones, limits, e)
  }

  /** What can still be wrong with an event after its limits were applied, said of the event as it
      came in: for no check is it the length of a field. */
  ghost predicate Acceptable(check: Check, lib: UrlLibrary, zones: string -> bool, limits: Limits, e: Fields) {
    var max := limits.maxFieldLength;
    match check
    case Kind => IsIdentifier(Text.Trim(e.kind))
    case Site => IsIdentifier(Text.Trim(e.siteID))
    case Identifiers => true
    case User => true
    case PathAndTitle => true
    case PageUrl => TruncateUrl(lib, e.url, max) == "" || IsWebUrl(lib, TruncateUrl(lib, e.url, max))
    case ReferrerUrl => TruncateUrl(lib, e.referrer, max) == "" || IsWebUrl(lib, TruncateUrl(lib, e.referrer, max))
    case Zone => ZonePasses(zones, e.timezone, e.timezoneOffset)
    case Body => e.payload.Some? ==> PayloadAcceptable(Payload.Object(e.payload.value), limits)
  }

  ghost predicate PayloadAcceptable(v: Payload.Value, limits: Limits) {
    && Payload.KeysLegal(v, limits.maxFieldLength)
    && Payload.FitsDepth(v, limits.maxPayloadDepth)
    && Payload.Supported(v)
    && Payload.Entries(v) <= limits.maxPayloadEntries
  }

  /** After the limits no length check on a string field fires, and each check passes exactly when the
      event as it came in was acceptable to it. */
  lemma LimitedPassesExactlyWhen(check: Check, lib: UrlLibrary, zones: string -> bool, limits: Limits, e: Fields)
    requires limits.maxFieldLength > 0
    ensures Passes(check, lib, zones, limits, Limited(lib, limits.maxFieldLength, e)) <==> Acceptable(check, lib, zones, limits, e)
  {
    var max := limits.maxFieldLength;
    match check
    case PageUrl => TruncatedUrlFits(lib, e.url, max);
    case ReferrerUrl => TruncatedUrlFits(lib, e.referrer, max);
    case Body =>
      Payload.TruncatedPayloadPassesExactlyWhen(e.payload, limits.maxPayloadEntries, limits.maxPayloadDepth, max);
    case _ =>
  }

  lemma PayloadTruncationIdempotent(payload: Option<map<string, Payload.Value>>, max: int)
    ensures Payload.TruncatePayload(Payload.TruncatePayload(payload, max), max) == Payload.TruncatePayload(payload, max)
  {
    if payload.Some? {
      Payload.TruncateIdempotent(Payload.Object(payload.value), max);
    }
  }

  /** Field by field: what fits is left alone, what does not keeps its first bytes. */
  lemma LimitedFields(lib: UrlLibrary, max: int, e: Fields)
    ensures var l := Limited(lib, max, e);
            && l.kind == e.kind && l.siteID == e.siteID && l.timezone == e.timezone && l.timezoneOffset == e.timezoneOffset
            && Payload.Cut(e.sessionID, l.sessionID, max) && Payload.Cut(e.anonymousID, l.anonymousID, max)
            && (e.userID.Some? <==> l.userID.Some?) && (e.userID.Some? ==> Payload.Cut(e.userID.value, l.userID.value, max))
            && Payload.Cut(e.path, l.path, max) && Payload.Cut(e.title, l.title, max)
            && l.url == TruncateUrl(lib, e.url, max) && l.referrer == TruncateUrl(lib, e.referrer, max)
            && (|e.url| <= max ==> l.url == e.url) && (|e.referrer| <= max ==> l.referrer == e.referrer)
            && (e.payload.Some? <==> l.payload.Some?)
            && (e.payload.Some? ==> Payload.CutThroughout(Payload.Object(e.payload.value), Payload.Object(l.payload.value), max))
  {
    if e.payload.Some? {
      Payload.TruncateCuts(Payload.Object(e.payload.value), max);
    }
  }

  /** An event that keeps to the limits is left as it is. */
  lemma FittingEventStays(lib: UrlLibrary, max: int, e: Fields)
    requires max > 0
    requires |e.sessionID| <= max && |e.anonymousID| <= max && (e.userID.Some? ==> |e.userID.value| <= max)
    requires |e.path| <= max && |e.title| <= max && |e.url| <= max && |e.referrer| <= max
    requires e.payload.Some? ==> Payload.StringsFit(Payload.Object(e.payload.value), max)
    ensures Limited(lib, max, e) == e
  {
    if e.payload.Some? {
      Payload.FittingStays(Payload.Object(e.payload.value), max);
    }
  }

  /** Applying the limits a second time changes nothing. */
  lemma LimitedIdempotent(lib: UrlLibrary, max: int, e: Fields)
    requires max > 0
    ensures Limited(lib, max, Limited(lib, max, e)) == Limited(lib, max, e)
  {
    TruncatedUrlFits(lib, e.url, max);
    TruncatedUrlFits(lib, e.referrer, max);
    PayloadTruncationIdempotent(e.payload, max);
  }

  class Record {
    var kind: string
    var siteID: string
    var sessionID: string
    var anonymousID: string
    var userID: Option<string>
    var path: string
    var title: string
    var url: string
    var referrer: string
    var timezone: string
    var timezoneOffset: Option<int>
    var payload: Option<map<string, Payload.Value>>

    ghost function Contents(): Fields
      reads this
    {
      Fields(kind, siteID, sessionID, anonymousID, userID, path, title, url, referrer, timezone, timezoneOffset, payload)
    }

    constructor (f: Fields)
      ensures Contents() == f
    {
      kind, siteID, sessionID, anonymousID, userID := f.kind, f.siteID, f.sessionID, f.anonymousID, f.userID;
      path, title, url, referrer := f.path, f.title, f.url, f.referrer;
      timezone, timezoneOffset, payload := f.timezone, f.timezoneOffset, f.payload;
    }

    /** First the plain strings ... */
    method LimitStrings(lib: UrlLibrary, max: int)
      modifies this`sessionID, this`anonymousID, this`userID, this`path, this`title
      ensures Contents() == Limited(lib, max, old(Contents())).(url := url, referrer := referrer, payload := payload)
    {
      sessionID := Payload.TruncateString(sessionID, max);
      anonymousID := Payload.TruncateString(anonymousID, max);
      if userID.Some? {
        userID := Some(Payload.TruncateString(userID.value, max));
      }
      path := Payload.TruncateString(path, max);
      title := Payload.TruncateString(title, max);
    }

    /** ... then what has a structure of its own. */
    method ApplyFieldLimits(lib: UrlLibrary, limits: Limits)
      modifies this
      ensures Contents() == Limited(lib, limits.maxFieldLength, old(Contents()))
    {
      var max := limits.maxFieldLength;
      LimitStrings(lib, max);
      url := TruncateUrl(lib, url, max);
      referrer := TruncateUrl(lib, referrer, max);
      payload := Payload.TruncateFields(payload, max);
    }

    /** The checks of the plain strings ... */
    method ValidateStrings(lib: UrlLibrary, zones: string -> bool, limits: Limits) returns (failed: Option<Check>)
      ensures IsFirstFailure(failed, 5, lib, zones, limits, Contents())
    {
      hide IsIdentifier, Text.Trim;
      var max := limits.maxFieldLength;
      if !IsIdentifier(Text.Trim(kind)) {
        return Some(Kind);
      }
      if !IsIdentifier(Text.Trim(siteID)) {
        return Some(Site);
      }
      if |sessionID| > max || |anonymousID| > max {
        return Some(Identifiers);
      }
      if userID.Some? && |userID.value| > max {
        return Some(User);
      }
      if |path| > max || |title| > max {
        return Some(PathAndTitle);
      }
      return None;
    }

    /** ... then the others. */
    method Validate(lib: UrlLibrary, zones: string -> bool, limits: Limits) returns (failed: Option<Check>)
      ensures failed.None? <==> AllPass(lib, zones, limits, Contents())
      ensures IsFirstFailure(failed, 9, lib, zones, limits, Contents())
    {
      hide UrlFieldPasses, ZonePasses, IsIdentifier, Text.Trim, Payload.PayloadPasses;
      var max := limits.maxFieldLength;
      failed := ValidateStrings(lib, zones, limits);
      if failed.Some? {
        return;
      }
      if !UrlFieldPasses(lib, url, max) {
        return Some(PageUrl);
      }
      if !UrlFieldPasses(lib, referrer, max) {
        return Some(ReferrerUrl);
      }
      if !ZonePasses(zones, timezone, timezoneOffset) {
        return Some(Zone);
      }
      var ok := Payload.ValidatePayload(payload, limits.maxPayloadEntries, limits.maxPayloadDepth, max);
      return if ok then None else Some(Body);
    }
  }
}
