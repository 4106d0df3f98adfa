/** The JavaScript string operations the engine relies on, written out over
    `seq<char>`: `toLowerCase` (ASCII letters), `includes`, `startsWith`,
    `endsWith`, `trim` and the regular-expression class `\s`, `join`, and the
    decimal rendering of a non-negative integer inside a template literal. */
module Text {

  /** The characters ECMAScript counts as white space or line terminators:
      what `String.prototype.trim` removes and what `\s` matches. */
  predicate IsSpace(c: char)
  {
    c == '\t' || c == '\n' || c == '\U{000B}' || c == '\U{000C}' || c == '\r' ||
    c == ' ' || c == '\U{00A0}' || c == '\U{1680}' || ('\U{2000}' <= c <= '\U{200A}') ||
    c == '\U{2028}' || c == '\U{2029}' || c == '\U{202F}' || c == '\U{205F}' ||
    c == '\U{3000}' || c == '\U{FEFF}'
  }

  /** A string with no white space at either end: what `trim` leaves. */
  predicate IsTrimmed(s: string)
  {
    s == [] || (!IsSpace(s[0]) && !IsSpace(s[|s| - 1]))
  }

  function LowerChar(c: char): (r: char)
    ensures 'a' <= r <= 'z' <==> ('a' <= c <= 'z' || 'A' <= c <= 'Z')
  {
    if 'A' <= c <= 'Z' then (c as int + 32) as char else c
  }

  /** `toLowerCase`, for the ASCII letters. */
  function ToLower(s: string): (r: string)
    ensures |r| == |s|
    ensures forall i :: 0 <= i < |s| ==> r[i] == LowerChar(s[i])
  {
    if s == [] then [] else [LowerChar(s[0])] + ToLower(s[1..])
  }

  /** Lowering a lowered string changes nothing. */
  lemma ToLowerIdempotent(s: string)
    ensures ToLower(ToLower(s)) == ToLower(s)
  {
    var once := ToLower(s);
    assert forall i :: 0 <= i < |s| ==> ToLower(once)[i] == LowerChar(LowerChar(s[i])) == once[i];
  }

  predicate StartsWith(s: string, prefix: string)
  {
    |prefix| <= |s| && s[..|prefix|] == prefix
  }

  predicate EndsWith(s: string, suffix: string)
  {
    |suffix| <= |s| && s[|s| - |suffix|..] == suffix
  }

  /** A string that starts with `p + q` starts with `p`. */
  lemma StartsWithPart(s: string, p: string, q: string)
    requires StartsWith(s, p + q)
    ensures StartsWith(s, p)
  {
    assert s[..|p|] == (p + q)[..|p|] == p;
  }

  /** When `p + rest` starts with `p + q`, `rest` starts with `q`. */
  lemma StartsWithRest(p: string, rest: string, q: string)
    requires StartsWith(p + rest, p + q)
    ensures StartsWith(rest, q)
  {
    assert rest[..|q|] == (p + rest)[|p|..|p| + |q|] == (p + q)[|p|..];
  }

  /** `t` occurs in `s` starting at index `k`. */
  predicate OccursAt(s: string, t: string, k: nat)
  {
    k + |t| <= |s| && s[k..k + |t|] == t
  }

  /** `s.includes(t)`: `t` occurs in `s` at some position. */
  predicate Contains(s: string, t: string)
  {
    exists k: nat :: k <= |s| && OccursAt(s, t, k)
  }

  /** Every slice of `s` occurs in `s`. */
  lemma SliceContained(s: string, i: nat, j: nat)
    requires i <= j <= |s|
    ensures Contains(s, s[i..j])
  {
    assert OccursAt(s, s[i..j], i);
  }

  /** A string occurs in any string built around it. */
  lemma ContainsInfix(a: string, t: string, b: string)
    ensures Contains(a + t + b, t)
  {
    var s := a + t + b;
    assert s[|a|..|a| + |t|] == t;
    SliceContained(s, |a|, |a| + |t|);
  }

  /** The second and fourth of five concatenated parts occur in the whole. */
  lemma ContainsParts(a: string, b: string, c: string, d: string, e: string)
    ensures Contains(a + b + c + d + e, b) && Contains(a + b + c + d + e, d)
  {
    var s := a + b + c + d + e;
    assert OccursAt(s, b, |a|) by {
      assert s[|a|..|a| + |b|] == b;
    }
    assert OccursAt(s, d, |a| + |b| + |c|) by {
      assert s[|a| + |b| + |c|..|a| + |b| + |c| + |d|] == d;
    }
  }

  /** What occurs in a part occurs in the whole. */
  lemma ContainsWithin(a: string, b: string, c: string, t: string)
    requires Contains(b, t)
    ensures Contains(a + b + c, t)
  {
    var k := OccurrenceAt(b, t);
    var s := a + b + c;
    assert s[|a| + k..|a| + k + |t|] == b[k..k + |t|];
    SliceContained(s, |a| + k, |a| + k + |t|);
  }

  /** Occurrence is transitive: what occurs in a part of `s` occurs in `s`. */
  lemma ContainsTransitive(s: string, m: string, t: string)
    requires Contains(s, m) && Contains(m, t)
    ensures Contains(s, t)
  {
    var i := OccurrenceAt(s, m);
    ContainsWithin(s[..i], m, s[i + |m|..], t);
    assert s[..i] + m + s[i + |m|..] == s;
  }

  /** A concatenation starts with its first part and ends with its last. */
  lemma Affixes(a: string, b: string, c: string)
    ensures StartsWith(a + b + c, a) && EndsWith(a + b + c, c)
  {
    var s := a + b + c;
    assert s[..|a|] == a;
    assert s[|s| - |c|..] == c;
  }

  /** Drops the leading white space, as a `^\s*` pattern replaced by nothing does. */
  function TrimStart(s: string): (r: string)
    ensures |r| <= |s| && r == s[|s| - |r|..]
    ensures r == [] || !IsSpace(r[0])
    ensures forall i :: 0 <= i < |s| - |r| ==> IsSpace(s[i])
  {
    if s != [] && IsSpace(s[0]) then TrimStart(s[1..]) else s
  }

  /** Drops the trailing white space, as a `\s*$` pattern replaced by nothing does. */
  function TrimEnd(s: string): (r: string)
    ensures |r| <= |s| && r == s[..|r|]
    ensures r == [] || !IsSpace(r[|r| - 1])
    ensures forall i :: |r| <= i < |s| ==> IsSpace(s[i])
  {
    if s != [] && IsSpace(s[|s| - 1]) then TrimEnd(s[..|s| - 1]) else s
  }

  /** `String.prototype.trim`. */
  function Trim(s: string): (r: string)
    ensures IsTrimmed(r)
    ensures Contains(s, r)
  {
    TrimBothEnds(s);
    TrimEnd(TrimStart(s))
  }

  /** Trimming both ends leaves a trimmed slice of the input. */
  lemma TrimBothEnds(s: string)
    ensures IsTrimmed(TrimEnd(TrimStart(s))) && Contains(s, TrimEnd(TrimStart(s)))
  {
    var head := TrimStart(s);
    TrimBothTrimmed(s);
    SuffixContained(s, head);
    PrefixContained(head, TrimEnd(head));
    ContainsTransitive(s, head, TrimEnd(head));
  }

  lemma TrimBothTrimmed(s: string)
    ensures IsTrimmed(TrimEnd(TrimStart(s)))
  {
    var head := TrimStart(s);
    var r := TrimEnd(head);
    if r != [] {
      assert r[0] == head[0];
    }
  }

  /** A suffix occurs in the whole. */
  lemma SuffixContained(s: string, t: string)
    requires |t| <= |s| && t == s[|s| - |t|..]
    ensures Contains(s, t)
  {
    assert s[|s| - |t|..|s|] == t;
    SliceContained(s, |s| - |t|, |s|);
  }

  /** A prefix occurs in the whole. */
  lemma PrefixContained(s: string, t: string)
    requires |t| <= |s| && t == s[..|t|]
    ensures Contains(s, t)
  {
    assert s[0..|t|] == t;
    SliceContained(s, 0, |t|);
  }

  /** Leading white space followed by a non-space is exactly what TrimStart drops. */
  lemma {:induction false} TrimStartDrops(ws: string, rest: string)
    requires forall i :: 0 <= i < |ws| ==> IsSpace(ws[i])
    requires rest == [] || !IsSpace(rest[0])
    ensures TrimStart(ws + rest) == rest
  {
    if ws == [] {
      assert ws + rest == rest;
    } else {
      assert (ws + rest)[1..] == ws[1..] + rest;
      TrimStartDrops(ws[1..], rest);
    }
  }

  /** Trailing white space after a non-space is exactly what TrimEnd drops. */
  lemma {:induction false} TrimEndDrops(rest: string, ws: string)
    requires forall i :: 0 <= i < |ws| ==> IsSpace(ws[i])
    requires rest == [] || !IsSpace(rest[|rest| - 1])
    ensures TrimEnd(rest + ws) == rest
  {
    if ws == [] {
      assert rest + ws == rest;
    } else {
      assert (rest + ws)[..|rest + ws| - 1] == rest + ws[..|ws| - 1];
      TrimEndDrops(rest, ws[..|ws| - 1]);
    }
  }

  /** `trim` leaves an already trimmed string alone. */
  lemma TrimTrimmed(s: string)
    requires IsTrimmed(s)
    ensures Trim(s) == s
  {
    TrimStartDrops("", s);
    assert "" + s == s;
    TrimEndDrops(s, "");
    assert s + "" == s;
  }

  /** `Array.prototype.join(sep)` over strings. */
  function Join(xs: seq<string>, sep: string): (r: string)
  {
    if xs == [] then ""
    else if |xs| == 1 then xs[0]
    else xs[0] + sep + Join(xs[1..], sep)
  }

  /** Every joined element occurs in the joined string. */
  lemma {:induction false} JoinContains(xs: seq<string>, sep: string, i: nat)
    requires i < |xs|
    ensures Contains(Join(xs, sep), xs[i])
  {
    if |xs| == 1 {
      assert Join(xs, sep) == "" + xs[0] + "";
      ContainsInfix("", xs[0], "");
    } else if i == 0 {
      assert Join(xs, sep) == "" + xs[0] + (sep + Join(xs[1..], sep));
      ContainsInfix("", xs[0], sep + Join(xs[1..], sep));
    } else {
      JoinContains(xs[1..], sep, i - 1);
      var tail := Join(xs[1..], sep);
      var k := OccurrenceAt(tail, xs[i]);
      var whole := xs[0] + sep + tail;
      assert whole[|xs[0] + sep| + k..|xs[0] + sep| + k + |xs[i]|] == xs[i];
      SliceContained(whole, |xs[0] + sep| + k, |xs[0] + sep| + k + |xs[i]|);
    }
  }

  /** Every element of a joined list occurs in the joined string. */
  lemma JoinContainsAll(xs: seq<string>, sep: string)
    ensures forall i :: 0 <= i < |xs| ==> Contains(Join(xs, sep), xs[i])
  {
    forall i | 0 <= i < |xs|
      ensures Contains(Join(xs, sep), xs[i])
    {
      JoinContains(xs, sep, i);
    }
  }

  /** An occurrence found by Contains sits at some index `k`. */
  lemma OccurrenceAt(s: string, t: string) returns (k: nat)
    requires Contains(s, t)
    ensures OccursAt(s, t, k)
  {
    k :| k <= |s| && OccursAt(s, t, k);
  }

  function DigitChar(d: nat): (c: char)
    requires d < 10
    ensures '0' <= c <= '9'
  {
    ('0' as int + d) as char
  }

  /** The decimal digits of `n`, as `${n}` renders a non-negative integer. */
  function NatToString(n: nat): (r: string)
    ensures |r| >= 1
    ensures forall i :: 0 <= i < |r| ==> '0' <= r[i] <= '9'
    ensures |r| > 1 ==> r[0] != '0'
  {
    if n < 10 then [DigitChar(n)] else NatToString(n / 10) + [DigitChar(n % 10)]
  }

  /** Where `p + [c] + u` equals a longer-prefixed `q + [c] + w`, the
      character `c` sits inside `q`. */
  lemma CharAfter(p: string, c: char, u: string, q: string, w: string)
    requires |p| < |q| && p + [c] + u == q + [c] + w
    ensures q[|p|] == c
  {
    assert (p + [c] + u)[|p|] == c;
    assert (q + [c] + w)[|p|] == q[|p|];
  }

  /** A run of digits ended by `sep`, a non-digit, is read back
      unambiguously: the digits and what follows the separator are both
      determined. */
  lemma DigitsThenSeparator(a: string, u: string, b: string, v: string, sep: char)
    requires forall i :: 0 <= i < |a| ==> '0' <= a[i] <= '9'
    requires forall i :: 0 <= i < |b| ==> '0' <= b[i] <= '9'
    requires !('0' <= sep <= '9')
    requires a + [sep] + u == b + [sep] + v
    ensures a == b && u == v
  {
    var x := a + [sep] + u;
    if |a| < |b| {
      CharAfter(a, sep, u, b, v);
      assert false;
    } else if |b| < |a| {
      CharAfter(b, sep, v, a, u);
      assert false;
    }
    assert a == x[..|a|];
    assert b == (b + [sep] + v)[..|b|];
    assert u == x[|a| + 1..];
    assert v == (b + [sep] + v)[|b| + 1..];
  }

  /** The number a string of decimal digits denotes. */
  function DecimalValue(s: string): nat
    requires forall i :: 0 <= i < |s| ==> '0' <= s[i] <= '9'
  {
    if s == [] then 0 else DecimalValue(s[..|s| - 1]) * 10 + (s[|s| - 1] as int - '0' as int)
  }

  /** Reading back the rendered digits gives the number: the rendering loses nothing. */
  lemma {:induction false} NatToStringRoundTrip(n: nat)
    ensures DecimalValue(NatToString(n)) == n
  {
    if n >= 10 {
      NatToStringRoundTrip(n / 10);
      var r := NatToString(n);
      assert r[..|r| - 1] == NatToString(n / 10);
    }
  }
}
