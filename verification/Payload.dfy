/** Custom payloads: truncation of over-long strings, and the limits checked afterwards. Strings are
    byte sequences, as `len` and slicing see them. */
module Payload {
  import opened Options

  /** A decoded JSON value. `Other` is anything the decoder does not produce. */
  datatype Value =
    | Null
    | Bool(b: bool)
    | Number(n: real)
    | Text(s: string)
    | Object(fields: map<string, Value>)
    | List(items: seq<Value>)
    | Other

  /** A string that fits is left alone; of one that does not, exactly the first `max` bytes are kept. */
  predicate Cut(s: string, r: string, max: int) {
    if max <= 0 || |s| <= max then r == s else r <= s && |r| == max
  }

  function TruncateString(s: string, max: int): (r: string)
    ensures max <= 0 || |s| <= max ==> r == s
    ensures 0 < max < |s| ==> r <= s && |r| == max
  {
    if max <= 0 || |s| <= max then s else s[..max]
  }

  function Truncate(v: Value, max: int): Value {
    match v
    case Text(s) => Text(TruncateString(s, max))
    case Object(fields) => Object(map k | k in fields :: Truncate(fields[k], max))
    case List(items) => List(seq(|items|, i requires 0 <= i < |items| => Truncate(items[i], max)))
    case _ => v
  }

  method TruncateValue(v: Value, max: int) returns (r: Value)
    ensures r == Truncate(v, max)
    decreases v
  {
    match v
    case Text(s) => return Text(TruncateString(s, max));
    case Object(fields) =>
      var typed, left := fields, fields.Keys;
      while left != {}
        invariant left <= fields.Keys == typed.Keys
        invariant forall k :: k in fields ==> typed[k] == if k in left then fields[k] else Truncate(fields[k], max)
        decreases left
      {
        var key :| key in left;
        var nested := TruncateValue(fields[key], max);
        typed := typed[key := nested];
        left := left - {key};
      }
      return Object(typed);
    case List(items) =>
      var typed := items;
      for i := 0 to |items|
        invariant |typed| == |items|
        invariant forall j :: 0 <= j < |items| ==> typed[j] == if j < i then Truncate(items[j], max) else items[j]
      {
        var nested := TruncateValue(items[i], max);
        typed := typed[i := nested];
      }
      return List(typed);
    case _ => return v;
  }

  /** The same keys, nesting and leaves, except that a string may have lost its tail. */
  ghost predicate SameShape(v: Value, w: Value) {
    match v
    case Text(s) => w.Text? && w.s <= s
    case Object(fields) => w.Object? && w.fields.Keys == fields.Keys && forall k :: k in fields ==> SameShape(fields[k], w.fields[k])
    case List(items) => w.List? && |w.items| == |items| && forall i :: 0 <= i < |items| ==> SameShape(items[i], w.items[i])
    case _ => w == v
  }

  lemma {:induction false} TruncateKeepsShape(v: Value, max: int)
    ensures SameShape(v, Truncate(v, max))
  {
    match v
    case Object(fields) =>
      forall k | k in fields ensures SameShape(fields[k], Truncate(fields[k], max)) { TruncateKeepsShape(fields[k], max); }
    case List(items) =>
      forall i | 0 <= i < |items| ensures SameShape(items[i], Truncate(items[i], max)) { TruncateKeepsShape(items[i], max); }
    case _ =>
  }

  /** Every string in it cut to length, and nothing else changed. */
  ghost predicate CutThroughout(v: Value, w: Value, max: int) {
    match v
    case Text(s) => w.Text? && Cut(s, w.s, max)
    case Object(fields) =>
      w.Object? && w.fields.Keys == fields.Keys && forall k :: k in fields ==> CutThroughout(fields[k], w.fields[k], max)
    case List(items) =>
      w.List? && |w.items| == |items| && forall i :: 0 <= i < |items| ==> CutThroughout(items[i], w.items[i], max)
    case _ => w == v
  }

  lemma {:induction false} TruncateCuts(v: Value, max: int)
    ensures CutThroughout(v, Truncate(v, max), max)
  {
    match v
    case Object(fields) =>
      forall k | k in fields ensures CutThroughout(fields[k], Truncate(fields[k], max), max) { TruncateCuts(fields[k], max); }
    case List(items) =>
      forall i | 0 <= i < |items| ensures CutThroughout(items[i], Truncate(items[i], max), max) { TruncateCuts(items[i], max); }
    case _ =>
  }

  /** There is only one way to cut a value to length; and one whose strings all fit stays as it is. */
  lemma {:induction false} CutIsDetermined(v: Value, w: Value, max: int)
    requires CutThroughout(v, w, max)
    ensures w == Truncate(v, max)
    ensures max > 0 && StringsFit(v, max) ==> w == v
  {
    match v
    case Object(fields) =>
      forall k | k in fields
        ensures w.fields[k] == Truncate(fields[k], max) && (max > 0 && StringsFit(fields[k], max) ==> w.fields[k] == fields[k])
      {
        CutIsDetermined(fields[k], w.fields[k], max);
      }
      assert w.fields == Truncate(v, max).fields;
      assert max > 0 && StringsFit(v, max) ==> w.fields == fields;
    case List(items) =>
      forall i | 0 <= i < |items|
        ensures w.items[i] == Truncate(items[i], max) && (max > 0 && StringsFit(items[i], max) ==> w.items[i] == items[i])
      {
        CutIsDetermined(items[i], w.items[i], max);
      }
      assert w.items == Truncate(v, max).items;
      assert max > 0 && StringsFit(v, max) ==> w.items == items;
    case _ =>
  }

  lemma FittingStays(v: Value, max: int)
    requires max > 0 && StringsFit(v, max)
    ensures Truncate(v, max) == v
  {
    TruncateCuts(v, max);
    CutIsDetermined(v, Truncate(v, max), max);
  }

  lemma {:induction false} TruncateIdempotent(v: Value, max: int)
    ensures Truncate(Truncate(v, max), max) == Truncate(v, max)
  {
    match v
    case Object(fields) =>
      forall k | k in fields
        ensures Truncate(Truncate(fields[k], max), max) == Truncate(fields[k], max)
      {
        TruncateIdempotent(fields[k], max);
      }
    case List(items) =>
      forall i | 0 <= i < |items|
        ensures Truncate(Truncate(items[i], max), max) == Truncate(items[i], max)
      {
        TruncateIdempotent(items[i], max);
      }
      assert Truncate(Truncate(v, max), max).items == Truncate(v, max).items;
    case _ =>
  }

  /** No string is longer than `max`. */
  ghost predicate StringsFit(v: Value, max: int) {
    match v
    case Text(s) => |s| <= max
    case Object(fields) => forall k :: k in fields ==> StringsFit(fields[k], max)
    case List(items) => forall i :: 0 <= i < |items| ==> StringsFit(items[i], max)
    case _ => true
  }

  /** No key is empty or longer than `max`. */
  ghost predicate KeysLegal(v: Value, max: int) {
    match v
    case Object(fields) => forall k :: k in fields ==> k != "" && |k| <= max && KeysLegal(fields[k], max)
    case List(items) => forall i :: 0 <= i < |items| ==> KeysLegal(items[i], max)
    case _ => true
  }

  /** Nested at most so many levels deep, itself included. */
  ghost predicate FitsDepth(v: Value, levels: int) {
    levels > 0 &&
    match v
    case Object(fields) => forall k :: k in fields ==> FitsDepth(fields[k], levels - 1)
    case List(items) => forall i :: 0 <= i < |items| ==> FitsDepth(items[i], levels - 1)
    case _ => true
  }

  /** Nothing but what JSON has. */
  ghost predicate Supported(v: Value) {
    match v
    case Object(fields) => forall k :: k in fields ==> Supported(fields[k])
    case List(items) => forall i :: 0 <= i < |items| ==> Supported(items[i])
    case _ => !v.Other?
  }

  /** Keys plus scalar leaves. */
  ghost function Entries(v: Value): nat
    decreases v, 1, 0
  {
    match v
    case Object(fields) => EntriesUnder(v, fields.Keys)
    case List(items) => EntriesFrom(v, 0)
    case Other => 0
    case _ => 1
  }

  /** ... under some of the keys of an object, taken in whatever order. */
  ghost function EntriesUnder(v: Value, keys: set<string>): nat
    requires v.Object? && keys <= v.fields.Keys
    decreases v, 0, |keys|
  {
    if keys == {} then 0
    else
      var k :| k in keys;
      1 + Entries(v.fields[k]) + EntriesUnder(v, keys - {k})
  }

  ghost function EntriesFrom(v: Value, i: nat): nat
    requires v.List? && i <= |v.items|
    decreases v, 0, |v.items| - i
  {
    if i == |v.items| then 0 else Entries(v.items[i]) + EntriesFrom(v, i + 1)
  }

  /** The order in which the keys are visited does not matter. */
  lemma {:induction false} AnyKeyFirst(v: Value, keys: set<string>, k: string)
    requires v.Object? && keys <= v.fields.Keys && k in keys
    ensures EntriesUnder(v, keys) == 1 + Entries(v.fields[k]) + EntriesUnder(v, keys - {k})
    decreases |keys|
  {
    var d :| d in keys && EntriesUnder(v, keys) == 1 + Entries(v.fields[d]) + EntriesUnder(v, keys - {d});
    if d != k {
      AnyKeyFirst(v, keys - {d}, k);
      AnyKeyFirst(v, keys - {k}, d);
      assert keys - {d} - {k} == keys - {k} - {d};
    }
  }

  lemma {:induction false} ShapeKeepsMeasures(v: Value, w: Value, max: int, levels: int)
    requires SameShape(v, w)
    ensures KeysLegal(v, max) <==> KeysLegal(w, max)
    ensures FitsDepth(v, levels) <==> FitsDepth(w, levels)
    ensures Supported(v) <==> Supported(w)
    ensures Entries(v) == Entries(w)
    decreases v, 1, 0
  {
    match v
    case Object(fields) =>
      forall k | k in fields
        ensures KeysLegal(fields[k], max) <==> KeysLegal(w.fields[k], max)
        ensures FitsDepth(fields[k], levels - 1) <==> FitsDepth(w.fields[k], levels - 1)
        ensures Supported(fields[k]) <==> Supported(w.fields[k])
      {
        ShapeKeepsMeasures(fields[k], w.fields[k], max, levels - 1);
      }
      SameEntriesUnder(v, w, fields.Keys);
    case List(items) =>
      forall i | 0 <= i < |items|
        ensures KeysLegal(items[i], max) <==> KeysLegal(w.items[i], max)
        ensures FitsDepth(items[i], levels - 1) <==> FitsDepth(w.items[i], levels - 1)
        ensures Supported(items[i]) <==> Supported(w.items[i])
      {
        ShapeKeepsMeasures(items[i], w.items[i], max, levels - 1);
      }
      SameEntriesFrom(v, w, 0);
    case _ =>
  }

  lemma {:induction false} SameEntriesUnder(v: Value, w: Value, keys: set<string>)
    requires v.Object? && SameShape(v, w) && keys <= v.fields.Keys
    ensures EntriesUnder(v, keys) == EntriesUnder(w, keys)
    decreases v, 0, |keys|
  {
    if keys != {} {
      var k :| k in keys;
      AnyKeyFirst(v, keys, k);
      AnyKeyFirst(w, keys, k);
      ShapeKeepsMeasures(v.fields[k], w.fields[k], 0, 0);
      SameEntriesUnder(v, w, keys - {k});
    }
  }

  lemma {:induction false} SameEntriesFrom(v: Value, w: Value, i: nat)
    requires v.List? && SameShape(v, w) && i <= |v.items|
    ensures EntriesFrom(v, i) == EntriesFrom(w, i)
    decreases v, 0, |v.items| - i
  {
    if i < |v.items| {
      ShapeKeepsMeasures(v.items[i], w.items[i], 0, 0);
      SameEntriesFrom(v, w, i + 1);
    }
  }

  lemma {:induction false} TruncatedFits(v: Value, max: int)
    requires max > 0
    ensures StringsFit(Truncate(v, max), max)
  {
    match v
    case Object(fields) =>
      forall k | k in fields ensures StringsFit(Truncate(fields[k], max), max) { TruncatedFits(fields[k], max); }
    case List(items) =>
      forall i | 0 <= i < |items| ensures StringsFit(Truncate(items[i], max), max) { TruncatedFits(items[i], max); }
    case _ =>
  }

  /** Everything the recursive check looks at. */
  ghost predicate Legal(v: Value, levels: int, max: int) {
    FitsDepth(v, levels) && KeysLegal(v, max) && StringsFit(v, max) && Supported(v)
  }

  lemma LegalObject(v: Value, levels: int, max: int)
    requires v.Object?
    ensures Legal(v, levels, max) <==>
      levels > 0 && forall k :: k in v.fields ==> k != "" && |k| <= max && Legal(v.fields[k], levels - 1, max)
  {
  }

  lemma LegalList(v: Value, levels: int, max: int)
    requires v.List?
    ensures Legal(v, levels, max) <==>
      levels > 0 && forall i :: 0 <= i < |v.items| ==> Legal(v.items[i], levels - 1, max)
  {
  }

  /** What the measures are, case by case. */
  lemma LegalLeaf(v: Value, levels: int, max: int)
    requires !v.Object? && !v.List?
    ensures Legal(v, levels, max) <==> levels > 0 && !v.Other? && (v.Text? ==> |v.s| <= max)
  {
  }

  lemma {:induction false} EntriesAppend(items: seq<Value>, last: Value, i: nat)
    requires i <= |items|
    ensures EntriesFrom(List(items + [last]), i) == EntriesFrom(List(items), i) + Entries(last)
    decreases |items| - i
  {
    if i < |items| {
      EntriesAppend(items, last, i + 1);
    }
  }

  /** A scalar is one entry, a list as many as its items, an object one more for each key. */
  lemma EntriesAdd(v: Value, items: seq<Value>, fields: map<string, Value>, k: string)
    ensures v.Null? || v.Bool? || v.Number? || v.Text? ==> Entries(v) == 1
    ensures Entries(List([])) == 0 && Entries(List(items + [v])) == Entries(List(items)) + Entries(v)
    ensures Entries(Object(map[])) == 0
    ensures k !in fields ==> Entries(Object(fields[k := v])) == Entries(Object(fields)) + 1 + Entries(v)
  {
    EntriesAppend(items, v, 0);
    if k !in fields {
      var o, p := Object(fields), Object(fields[k := v]);
      AnyKeyFirst(p, p.fields.Keys, k);
      assert p.fields.Keys - {k} == fields.Keys;
      SameKeysSameEntries(o, p, fields.Keys);
    }
  }

  lemma {:induction false} SameKeysSameEntries(v: Value, w: Value, keys: set<string>)
    requires v.Object? && w.Object? && keys <= v.fields.Keys && keys <= w.fields.Keys
    requires forall k :: k in keys ==> v.fields[k] == w.fields[k]
    ensures EntriesUnder(v, keys) == EntriesUnder(w, keys)
    decreases |keys|
  {
    if keys != {} {
      var k :| k in keys;
      AnyKeyFirst(v, keys, k);
      AnyKeyFirst(w, keys, k);
      SameKeysSameEntries(v, w, keys - {k});
    }
  }

  /** The recursive check: how many entries there are, or that something is not allowed. The first
      offence found ends it; whether there is one does not depend on the order of the keys. */
  method ValidatePayloadValue(v: Value, depth: int, maxDepth: int, max: int) returns (ok: bool, count: nat)
    ensures ok <==> Legal(v, maxDepth - depth + 1, max)
    ensures ok ==> count == Entries(v)
    decreases v, 1
  {
    if depth > maxDepth {
      return false, 0;
    }
    match v
    case Text(s) =>
      if |s| > max {
        return false, 0;
      }
      return true, 1;
    case Object(_) => ok, count := ValidateObject(v, depth, maxDepth, max);
    case List(_) => ok, count := ValidateList(v, depth, maxDepth, max);
    case Other => return false, 0;
    case _ => return true, 1;
  }

  /** The loop over the keys of an object, in any order. */
  method ValidateObject(v: Value, depth: int, maxDepth: int, max: int) returns (ok: bool, count: nat)
    requires v.Object? && depth <= maxDepth
    ensures ok <==> Legal(v, maxDepth - depth + 1, max)
    ensures ok ==> count == Entries(v)
    decreases v, 0
  {
    var levels := maxDepth - depth + 1;
    LegalObject(v, levels, max);
    count := 0;
    var left := v.fields.Keys;
    while left != {}
      invariant left <= v.fields.Keys
      invariant forall k :: k in v.fields && k !in left ==> k != "" && |k| <= max && Legal(v.fields[k], levels - 1, max)
      invariant count + EntriesUnder(v, left) == Entries(v)
      decreases left
    {
      var key :| key in left;
      if key == "" || |key| > max {
        return false, 0;
      }
      var nestedOk, nestedCount := ValidatePayloadValue(v.fields[key], depth + 1, maxDepth, max);
      if !nestedOk {
        return false, 0;
      }
      AnyKeyFirst(v, left, key);
      count := count + 1 + nestedCount;
      left := left - {key};
    }
    return true, count;
  }

  /** The loop over the items of a list. */
  method ValidateList(v: Value, depth: int, maxDepth: int, max: int) returns (ok: bool, count: nat)
    requires v.List? && depth <= maxDepth
    ensures ok <==> Legal(v, maxDepth - depth + 1, max)
    ensures ok ==> count == Entries(v)
    decreases v, 0
  {
    var levels := maxDepth - depth + 1;
    LegalList(v, levels, max);
    count := 0;
    for i := 0 to |v.items|
      invariant forall j :: 0 <= j < i ==> Legal(v.items[j], levels - 1, max)
      invariant count + EntriesFrom(v, i) == Entries(v)
    {
      var nestedOk, nestedCount := ValidatePayloadValue(v.items[i], depth + 1, maxDepth, max);
      if !nestedOk {
        return false, 0;
      }
      count := count + nestedCount;
    }
    return true, count;
  }

  /** What it takes for a payload to pass; a missing one always does. */
  ghost predicate PayloadPasses(payload: Option<map<string, Value>>, maxEntries: int, maxDepth: int, max: int) {
    payload.Some? ==> Legal(Object(payload.value), maxDepth, max) && Entries(Object(payload.value)) <= maxEntries
  }

  method ValidatePayload(payload: Option<map<string, Value>>, maxEntries: int, maxDepth: int, max: int) returns (ok: bool)
    ensures ok <==> PayloadPasses(payload, maxEntries, maxDepth, max)
    ensures ok <==> payload.None? || (Legal(Object(payload.value), maxDepth, max) && Entries(Object(payload.value)) <= maxEntries)
  {
    if payload.None? {
      return true;
    }
    var legal, count := ValidatePayloadValue(Object(payload.value), 1, maxDepth, max);
    return legal && count <= maxEntries;
  }

  function TruncatePayload(payload: Option<map<string, Value>>, max: int): Option<map<string, Value>> {
    if payload.None? then None else Some(Truncate(Object(payload.value), max).fields)
  }

  method TruncateFields(payload: Option<map<string, Value>>, max: int) returns (r: Option<map<string, Value>>)
    ensures r == TruncatePayload(payload, max)
    ensures payload.None? ==> r.None?
    ensures payload.Some? ==> r.Some? && CutThroughout(Object(payload.value), Object(r.value), max)
  {
    if payload.None? {
      return None;
    }
    var truncated := TruncateValue(Object(payload.value), max);
    TruncateCuts(Object(payload.value), max);
    return Some(truncated.fields);
  }

  /** After truncation only keys, depth, types and size can be at fault, and they are judged as they
      came in: truncation neither repairs nor breaks any of them. */
  lemma TruncatedPayloadPassesExactlyWhen(payload: Option<map<string, Value>>, maxEntries: int, maxDepth: int, max: int)
    requires max > 0
    ensures PayloadPasses(TruncatePayload(payload, max), maxEntries, maxDepth, max) <==>
      (payload.Some? ==>
        var v := Object(payload.value);
        KeysLegal(v, max) && FitsDepth(v, maxDepth) && Supported(v) && Entries(v) <= maxEntries)
  {
    if payload.Some? {
      var v := Object(payload.value);
      TruncateKeepsShape(v, max);
      ShapeKeepsMeasures(v, Truncate(v, max), max, maxDepth);
      TruncatedFits(v, max);
    }
  }
}
