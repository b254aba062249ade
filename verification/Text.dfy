/** The string operations the collector is built on, for ASCII text. */
module Text {
  predicate IsSpace(c: char) {
    9 <= c as int <= 13 || c == ' '
  }

  function TrimLeft(s: string): (r: string) {
    if s != "" && IsSpace(s[0]) then TrimLeft(s[1..]) else s
  }

  function TrimRight(s: string): (r: string) {
    if s != "" && IsSpace(s[|s| - 1]) then TrimRight(s[..|s| - 1]) else s
  }

  function Trim(s: string): string {
    TrimRight(TrimLeft(s))
  }

  /** No space at either end. */
  predicate Trimmed(s: string) {
    s == "" || (!IsSpace(s[0]) && !IsSpace(s[|s| - 1]))
  }

  lemma {:induction false} TrimRightFacts(s: string)
    ensures var r := TrimRight(s);
            && r <= s
            && (r != "" ==> !IsSpace(r[|r| - 1]))
            && (s != "" && !IsSpace(s[0]) ==> r != "")
  {
    if s != "" && IsSpace(s[|s| - 1]) {
      TrimRightFacts(s[..|s| - 1]);
    }
  }

  lemma {:induction false} TrimLeftFacts(s: string)
    ensures var r := TrimLeft(s);
            && (r != "" ==> !IsSpace(r[0]))
            && (forall c :: c in r ==> c in s)
  {
    if s != "" && IsSpace(s[0]) {
      TrimLeftFacts(s[1..]);
    }
  }

  /** Trimming removes spaces at the ends, adds nothing, and does nothing more the second time. */
  lemma TrimFacts(s: string)
    ensures Trimmed(Trim(s))
    ensures forall c :: c in Trim(s) ==> c in s
    ensures Trimmed(s) ==> Trim(s) == s
  {
    TrimLeftFacts(s);
    TrimRightFacts(TrimLeft(s));
  }

  /** Nothing but tab, line feed, vertical tab, form feed, carriage return and blank. */
  predicate Blank(s: string) {
    forall i :: 0 <= i < |s| ==> s[i] as int in {9, 10, 11, 12, 13, 32}
  }

  lemma {:induction false} TrimLeftTakesBlanks(s: string)
    ensures |TrimLeft(s)| <= |s|
    ensures var n := |s| - |TrimLeft(s)|; Blank(s[..n]) && s[n..] == TrimLeft(s)
  {
    if s != "" && IsSpace(s[0]) {
      TrimLeftTakesBlanks(s[1..]);
      var n := |s[1..]| - |TrimLeft(s[1..])|;
      assert s[..n + 1] == [s[0]] + s[1..][..n];
    }
  }

  lemma {:induction false} TrimRightTakesBlanks(s: string)
    ensures var r := TrimRight(s); r <= s && Blank(s[|r|..])
  {
    if s != "" && IsSpace(s[|s| - 1]) {
      var n := |s| - 1;
      TrimRightTakesBlanks(s[..n]);
      var r := TrimRight(s);
      assert s[|r|..] == s[..n][|r|..] + [s[n]];
    }
  }

  /** Only spaces go: a string is spaces, what trimming leaves of it, and spaces. */
  lemma TrimTakesBlanks(s: string) returns (lead: string, trail: string)
    ensures s == lead + Trim(s) + trail && Blank(lead) && Blank(trail)
  {
    TrimLeftTakesBlanks(s);
    TrimRightTakesBlanks(TrimLeft(s));
    var left, r := TrimLeft(s), Trim(s);
    lead, trail := s[..|s| - |left|], left[|r|..];
    assert s == lead + left && left == r + trail;
  }

  lemma {:induction false} TrimLeftOfBlanks(lead: string, s: string)
    requires Blank(lead)
    ensures TrimLeft(lead + s) == TrimLeft(s)
  {
    if lead == "" {
      assert lead + s == s;
    } else {
      TrimLeftOfBlanks(lead[1..], s);
      assert (lead + s)[1..] == lead[1..] + s;
    }
  }

  lemma {:induction false} TrimRightOfBlanks(s: string, trail: string)
    requires Blank(trail)
    ensures TrimRight(s + trail) == TrimRight(s)
  {
    if trail == "" {
      assert s + trail == s;
    } else {
      var n, w := |trail| - 1, s + trail;
      assert w[|w| - 1] == trail[n] && w[..|w| - 1] == s + trail[..n];
      TrimRightStep(w);
      hide TrimRight;
      TrimRightOfBlanks(s, trail[..n]);
    }
  }

  lemma TrimRightStep(s: string)
    ensures s != "" && IsSpace(s[|s| - 1]) ==> TrimRight(s) == TrimRight(s[..|s| - 1])
  {
  }

  lemma {:induction false} TrimRightKeeps(s: string, k: nat)
    requires k < |s| && !IsSpace(s[k])
    ensures k < |TrimRight(s)| && TrimRight(s) <= s
  {
    if IsSpace(s[|s| - 1]) {
      TrimRightKeeps(s[..|s| - 1], k);
    }
  }

  lemma {:induction false} TrimLeftBeforeBlanks(s: string, trail: string)
    requires Blank(trail)
    ensures exists t :: Blank(t) && TrimLeft(s + trail) == TrimLeft(s) + t
  {
    if s != "" && IsSpace(s[0]) {
      TrimLeftBeforeBlanks(s[1..], trail);
      assert (s + trail)[1..] == s[1..] + trail;
    } else if s == "" {
      TrimLeftTakesBlanks(trail);
      assert s + trail == trail && TrimLeft(s) + TrimLeft(trail) == TrimLeft(trail);
      var n := |trail| - |TrimLeft(trail)|;
      assert Blank(trail[n..]);
    }
  }

  /** What trimming leaves does not depend on spaces around. */
  lemma TrimIgnoresBlanks(lead: string, s: string, trail: string)
    requires Blank(lead) && Blank(trail)
    ensures Trim(lead + s + trail) == Trim(s)
  {
    assert lead + s + trail == lead + (s + trail);
    TrimLeftOfBlanks(lead, s + trail);
    TrimLeftBeforeBlanks(s, trail);
    var t :| Blank(t) && TrimLeft(s + trail) == TrimLeft(s) + t;
    TrimRightOfBlanks(TrimLeft(s), t);
  }

  function LowerChar(c: char): char {
    if 'A' <= c <= 'Z' then c + (32 as char) else c
  }

  function UpperChar(c: char): char {
    if 'a' <= c <= 'z' then c - (32 as char) else c
  }

  /** The 26 letters change case by 32, and nothing else changes. */
  lemma CaseOfChar(c: char)
    ensures 65 <= c as int <= 90 ==> LowerChar(c) as int == c as int + 32 && UpperChar(LowerChar(c)) == c
    ensures 97 <= c as int <= 122 ==> UpperChar(c) as int == c as int - 32 && LowerChar(UpperChar(c)) == c
    ensures !(65 <= c as int <= 90) ==> LowerChar(c) == c
    ensures !(97 <= c as int <= 122) ==> UpperChar(c) == c
  {
  }

  function Lower(s: string): (r: string)
    ensures |r| == |s|
    ensures forall i :: 0 <= i < |s| ==> r[i] == LowerChar(s[i])
  {
    seq(|s|, i requires 0 <= i < |s| => LowerChar(s[i]))
  }

  function Upper(s: string): (r: string)
    ensures |r| == |s|
    ensures forall i :: 0 <= i < |s| ==> r[i] == UpperChar(s[i])
  {
    seq(|s|, i requires 0 <= i < |s| => UpperChar(s[i]))
  }

  lemma CaseFacts(s: string)
    ensures Lower(Lower(s)) == Lower(s) && Upper(Upper(s)) == Upper(s)
    ensures Trimmed(s) ==> Trimmed(Lower(s)) && Trimmed(Upper(s))
  {
  }

  /** The part before the first `c`, or everything. */
  function Before(s: string, c: char): (r: string)
    ensures r <= s && c !in r
    ensures c !in s ==> r == s
    ensures |r| < |s| ==> s[|r|] == c
  {
    if s == "" || s[0] == c then "" else [s[0]] + Before(s[1..], c)
  }

  function TrimPrefix(s: string, prefix: string): string {
    if prefix <= s then s[|prefix|..] else s
  }

  lemma {:induction false} BeforeFirst(p: string, rest: string, c: char)
    requires c !in p && (rest == "" || rest[0] == c)
    ensures Before(p + rest, c) == p
  {
    if p == "" {
      assert p + rest == rest;
    } else {
      BeforeFirst(p[1..], rest, c);
      assert (p + rest)[1..] == p[1..] + rest;
    }
  }

  /** The pieces between separators; always at least one. */
  function Split(s: string, c: char): (parts: seq<string>)
    ensures parts != []
    decreases |s|
  {
    var head := Before(s, c);
    if |head| == |s| then [s] else [head] + Split(s[|head| + 1..], c)
  }

  function Join(parts: seq<string>, c: char): string {
    if parts == [] then ""
    else if |parts| == 1 then parts[0]
    else parts[0] + [c] + Join(parts[1..], c)
  }

  lemma {:induction false} PiecesHaveNoSeparator(s: string, c: char)
    ensures forall p :: p in Split(s, c) ==> c !in p && forall x :: x in p ==> x in s
    decreases |s|
  {
    var head := Before(s, c);
    if |head| < |s| {
      var rest := s[|head| + 1..];
      PiecesHaveNoSeparator(rest, c);
      assert forall x :: x in rest ==> x in s;
    }
  }

  lemma {:induction false} JoinSplit(s: string, c: char)
    ensures Join(Split(s, c), c) == s
    decreases |s|
  {
    hide Join, Split, Before;
    var head := Before(s, c);
    if |head| == |s| {
      SplitWhole(s, c);
    } else {
      var rest := s[|head| + 1..];
      SplitFirst(s, c);
      JoinSplit(rest, c);
      JoinFirst(head, Split(rest, c), c);
      assert s == head + [c] + rest;
    }
  }

  lemma SplitWhole(s: string, c: char)
    requires |Before(s, c)| == |s|
    ensures Join(Split(s, c), c) == s
  {
  }

  lemma SplitFirst(s: string, c: char)
    requires |Before(s, c)| < |s|
    ensures Split(s, c) == [Before(s, c)] + Split(s[|Before(s, c)| + 1..], c)
  {
  }

  lemma JoinFirst(first: string, parts: seq<string>, c: char)
    requires parts != []
    ensures Join([first] + parts, c) == first + [c] + Join(parts, c)
  {
    assert ([first] + parts)[1..] == parts;
  }

  lemma {:induction false} BeforeOfJoin(p: string, rest: string, c: char)
    requires c !in p
    ensures Before(p + [c] + rest, c) == p
    decreases |p|
  {
    if p != "" {
      assert p == [p[0]] + p[1..];
      BeforeOfJoin(p[1..], rest, c);
      assert (p + [c] + rest)[1..] == p[1..] + [c] + rest;
    }
  }

  lemma {:induction false} SplitJoin(parts: seq<string>, c: char)
    requires parts != [] && forall p :: p in parts ==> c !in p
    ensures Split(Join(parts, c), c) == parts
  {
    if |parts| > 1 {
      var rest := Join(parts[1..], c);
      BeforeOfJoin(parts[0], rest, c);
      SplitJoin(parts[1..], c);
      assert (parts[0] + [c] + rest)[|parts[0]| + 1..] == rest;
    }
  }

  /** The entries that are not empty, each where it occurs first. */
  function Distinct(xs: seq<string>): seq<string> {
    if xs == [] then []
    else
      var front, last := Distinct(xs[..|xs| - 1]), xs[|xs| - 1];
      if last == "" || last in front then front else front + [last]
  }

  /** Where a string occurs first. */
  ghost function FirstIndex(xs: seq<string>, x: string): (i: nat)
    requires x in xs
    ensures i < |xs| && xs[i] == x && x !in xs[..i]
  {
    if xs[0] == x then 0
    else
      assert xs == [xs[0]] + xs[1..];
      var i := FirstIndex(xs[1..], x);
      assert xs[..i + 1] == [xs[0]] + xs[1..][..i];
      i + 1
  }

  lemma {:induction false} FirstIndexIs(xs: seq<string>, x: string, i: nat)
    requires i < |xs| && xs[i] == x && x !in xs[..i]
    ensures FirstIndex(xs, x) == i
  {
    if i > 0 {
      assert xs[..i] == [xs[0]] + xs[1..][..i - 1];
      FirstIndexIs(xs[1..], x, i - 1);
    }
  }

  lemma FirstIndexStable(xs: seq<string>, last: string, x: string)
    requires x in xs
    ensures FirstIndex(xs + [last], x) == FirstIndex(xs, x)
  {
    var j := FirstIndex(xs, x);
    assert (xs + [last])[..j] == xs[..j];
    FirstIndexIs(xs + [last], x, j);
  }

  /** No duplicates, nothing empty, nothing lost, in the order of first appearance. */
  lemma {:induction false} DistinctFacts(xs: seq<string>)
    ensures forall x :: x in Distinct(xs) <==> x in xs && x != ""
    ensures forall i, j :: 0 <= i < j < |Distinct(xs)| ==> FirstIndex(xs, Distinct(xs)[i]) < FirstIndex(xs, Distinct(xs)[j])
  {
    if xs != [] {
      var n := |xs| - 1;
      var front, last := xs[..n], xs[n];
      var d := Distinct(front);
      DistinctFacts(front);
      assert xs == front + [last];
      forall x | x in front
        ensures FirstIndex(xs, x) == FirstIndex(front, x)
      {
        FirstIndexStable(front, last, x);
      }
      if last !in front { FirstIndexIs(xs, last, n); }
    }
  }

  lemma DistinctStep(xs: seq<string>, i: nat)
    requires i < |xs|
    ensures var front := Distinct(xs[..i]);
            Distinct(xs[..i + 1]) == if xs[i] == "" || xs[i] in front then front else front + [xs[i]]
  {
    assert xs[..i + 1][..i] == xs[..i];
  }
}
