/** The string operations the source relies on, with JavaScript's meaning:
    `indexOf`, `includes`, `startsWith`, `split` with a string separator,
    decimal formatting of numbers inside template strings, and `parseInt`. */
module Strings {
  import opened Wrappers

  /** `sep` occurs in `s` at index `i`. */
  predicate OccursAt(s: string, sep: string, i: nat)
  {
    i + |sep| <= |s| && s[i..i + |sep|] == sep
  }

  /** Occurrences in `s` past index 0 are the occurrences in its tail, shifted by one. */
  lemma OccursInTail(s: string, sep: string)
    requires |s| > 0
    ensures OccursAt(s, sep, 0) <==> sep <= s
    ensures forall j: nat :: 0 < j ==> (OccursAt(s, sep, j) <==> OccursAt(s[1..], sep, j - 1))
  {
    forall j: nat | 0 < j ensures OccursAt(s, sep, j) <==> OccursAt(s[1..], sep, j - 1) {
      if j + |sep| <= |s| {
        var t := s[1..];
        assert forall k :: 0 <= k < |t| ==> t[k] == s[k + 1];
        assert t[j - 1..j - 1 + |sep|] == s[j..j + |sep|];
      }
    }
  }

  /** `s.indexOf(sep)`: the first index at which `sep` occurs, `None` standing for -1. */
  function IndexOf(s: string, sep: string): (r: Option<nat>)
    ensures r.Some? ==> OccursAt(s, sep, r.value)
    ensures r.Some? ==> forall j: nat :: j < r.value ==> !OccursAt(s, sep, j)
    ensures r.None? ==> forall j: nat :: !OccursAt(s, sep, j)
    decreases |s|
  {
    if sep <= s then Some(0)
    else if |s| == 0 then None
    else
      OccursInTail(s, sep);
      match IndexOf(s[1..], sep)
      case Some(i) => Some(i + 1)
      case None => None
  }

  /** `s.includes(sub)`: `sub` occurs somewhere in `s` (the empty string occurs everywhere). */
  predicate Contains(s: string, sub: string)
  {
    IndexOf(s, sub).Some?
  }

  lemma ContainsIff(s: string, sub: string)
    ensures Contains(s, sub) <==> exists i: nat :: OccursAt(s, sub, i)
  {
    if Contains(s, sub) {
      assert OccursAt(s, sub, IndexOf(s, sub).value);
    }
  }

  /** `s.split(sep)` for a non-empty separator: the pieces between the
      successive leftmost occurrences of `sep`. */
  function SplitOn(s: string, sep: string): (r: seq<string>)
    requires |sep| > 0
    ensures |r| >= 1
    ensures forall k :: 0 <= k < |r| ==> !Contains(r[k], sep)
    decreases |s|
  {
    match IndexOf(s, sep)
    case None => [s]
    case Some(i) =>
      var head := s[..i];
      assert !Contains(head, sep) by {
        forall j: nat ensures !OccursAt(head, sep, j) {
          if OccursAt(head, sep, j) {
            assert s[j..j + |sep|] == head[j..j + |sep|];
            assert OccursAt(s, sep, j) && j < i;
          }
        }
      }
      [head] + SplitOn(s[i + |sep|..], sep)
  }

  /** `parts.join(sep)`. */
  function Join(parts: seq<string>, sep: string): string
  {
    if |parts| == 0 then ""
    else if |parts| == 1 then parts[0]
    else parts[0] + sep + Join(parts[1..], sep)
  }

  /** Splitting and joining again gives back the original string. */
  lemma {:induction false} JoinSplitOn(s: string, sep: string)
    requires |sep| > 0
    ensures Join(SplitOn(s, sep), sep) == s
    decreases |s|
  {
    match IndexOf(s, sep)
    case None =>
      assert SplitOn(s, sep) == [s];
    case Some(i) =>
      var tail := s[i + |sep|..];
      SplitOnSome(s, sep, i);
      JoinSplitOn(tail, sep);
      JoinCons(s[..i], SplitOn(tail, sep), sep);
      Recombine(s, sep, i);
  }

  /** Where the first occurrence is, the split is the piece before it
      followed by the split of what comes after it. */
  lemma SplitOnSome(s: string, sep: string, i: nat)
    requires |sep| > 0 && IndexOf(s, sep) == Some(i)
    ensures i + |sep| <= |s|
    ensures SplitOn(s, sep) == [s[..i]] + SplitOn(s[i + |sep|..], sep)
  {
  }

  /** A string is its prefix, an occurrence of `sep`, and the rest. */
  lemma Recombine(s: string, sep: string, i: nat)
    requires OccursAt(s, sep, i)
    ensures s == s[..i] + sep + s[i + |sep|..]
  {
    assert s[i..i + |sep|] == sep;
    assert s == s[..i] + s[i..i + |sep|] + s[i + |sep|..];
  }

  lemma JoinCons(head: string, rest: seq<string>, sep: string)
    requires |rest| >= 1
    ensures Join([head] + rest, sep) == head + sep + Join(rest, sep)
  {
    assert ([head] + rest)[1..] == rest;
  }

  /** `s.split(sep)[0]`: everything before the first `sep`, or all of `s`. */
  function BeforeFirst(s: string, sep: string): string
    requires |sep| > 0
  {
    SplitOn(s, sep)[0]
  }

  /** When the first character of `sep` does not occur in `a`, the first
      split of `a + sep + b` falls right after `a`. */
  lemma SplitOnAfter(a: string, sep: string, b: string)
    requires |sep| > 0 && sep[0] !in a
    ensures SplitOn(a + sep + b, sep) == [a] + SplitOn(b, sep)
  {
    var s := a + sep + b;
    assert OccursAt(s, sep, |a|) by {
      assert s[|a|..|a| + |sep|] == sep;
    }
    forall j: nat | j < |a| ensures !OccursAt(s, sep, j) {
      assert s[j] == a[j];
    }
    var r := IndexOf(s, sep);
    assert r == Some(|a|);
    assert s[..|a|] == a;
    assert s[|a| + |sep|..] == b;
  }

  /** The first piece of `name + ";" + rest` split on `sep` keeps `name` whole
      when `name` holds neither `;` nor `sep`, and `sep` holds no `;`. */
  lemma BeforeFirstKeepsName(name: string, rest: string, sep: string)
    requires |sep| > 0 && ';' !in sep && ';' !in name && !Contains(name, sep)
    ensures BeforeFirst(BeforeFirst(name + ";" + rest, sep), ";") == name
  {
    var t := name + ";" + rest;
    var head := BeforeFirst(t, sep);
    assert head[..|name| + 1] == name + ";" by {
      match IndexOf(t, sep)
      case None =>
        assert head == t;
      case Some(k) =>
        assert head == t[..k];
        if k <= |name| {
          if k + |sep| <= |name| {
            OccursInPrefix(t, name, sep, k);
            ContainsIff(name, sep);
            assert false;
          } else {
            CharOfOccurrence(t, sep, k, |name|);
            assert false;
          }
        }
    }
    assert head == name + ";" + head[|name| + 1..];
    SplitOnAfter(name, ";", head[|name| + 1..]);
  }

  lemma CharOfOccurrence(t: string, sep: string, k: nat, p: nat)
    requires OccursAt(t, sep, k) && k <= p < k + |sep|
    ensures sep[p - k] == t[p]
  {
    assert t[k..k + |sep|][p - k] == t[p];
  }

  lemma OccursInPrefix(t: string, u: string, sep: string, k: nat)
    requires u <= t && k + |sep| <= |u| && OccursAt(t, sep, k)
    ensures OccursAt(u, sep, k)
  {
    assert u[k..k + |sep|] == t[k..k + |sep|];
  }

  /** `s.startsWith(prefix)`. */
  predicate StartsWith(s: string, prefix: string)
  {
    prefix <= s
  }

  /** The digit character for `d`. */
  function DigitChar(d: nat): char
    requires d < 10
  {
    ('0' as int + d) as char
  }

  predicate IsDigit(c: char)
  {
    '0' <= c <= '9'
  }

  function DigitValue(c: char): (d: nat)
    requires IsDigit(c)
    ensures d < 10
  {
    (c as int - '0' as int) as nat
  }

  lemma DigitRoundTrip(d: nat)
    requires d < 10
    ensures IsDigit(DigitChar(d)) && DigitValue(DigitChar(d)) == d
  {
  }

  /** The decimal form of a natural number, as a template string prints it. */
  function NatToString(n: nat): (r: string)
    ensures |r| >= 1
    ensures forall i :: 0 <= i < |r| ==> IsDigit(r[i])
  {
    DigitRoundTrip(n % 10);
    if n < 10 then [DigitChar(n)] else NatToString(n / 10) + [DigitChar(n % 10)]
  }

  /** The decimal form of an integer, with a leading `-` when negative. */
  function IntToString(i: int): string
  {
    if i < 0 then "-" + NatToString(-i) else NatToString(i)
  }

  /** The value of a string of decimal digits read left to right. */
  function DigitsValue(ds: string): nat
    requires forall i :: 0 <= i < |ds| ==> IsDigit(ds[i])
  {
    if |ds| == 0 then 0 else DigitsValue(ds[..|ds| - 1]) * 10 + DigitValue(ds[|ds| - 1])
  }

  /** The number of leading decimal digits of `s`. */
  function LeadingDigits(s: string): (k: nat)
    ensures k <= |s|
    ensures forall i :: 0 <= i < k ==> IsDigit(s[i])
    ensures k < |s| ==> !IsDigit(s[k])
  {
    if |s| == 0 || !IsDigit(s[0]) then 0 else 1 + LeadingDigits(s[1..])
  }

  /** `parseInt(s, 10)` on the inputs the model needs: optional leading spaces,
      an optional sign, then the longest run of digits; `None` is `NaN`. */
  function ParseInt(s: string): Option<int>
  {
    if |s| > 0 && s[0] == ' ' then ParseInt(s[1..])
    else
      var neg := |s| > 0 && s[0] == '-';
      var body := if |s| > 0 && (s[0] == '-' || s[0] == '+') then s[1..] else s;
      var k := LeadingDigits(body);
      if k == 0 then None
      else
        var v: int := DigitsValue(body[..k]);
        Some(if neg then -v else v)
  }

  lemma {:induction false} DigitsValueOfNat(n: nat)
    ensures DigitsValue(NatToString(n)) == n
  {
    var r := NatToString(n);
    DigitRoundTrip(n % 10);
    if n >= 10 {
      DigitsValueOfNat(n / 10);
      assert r[..|r| - 1] == NatToString(n / 10);
    }
  }

  /** Reading back the printed form of an integer gives the integer. */
  lemma ParseIntOfIntToString(i: int)
    ensures ParseInt(IntToString(i)) == Some(i)
  {
    var n: nat := if i < 0 then -i else i;
    var digits := NatToString(n);
    var s := IntToString(i);
    var body := if i < 0 then s[1..] else s;
    assert body == digits;
    assert LeadingDigits(body) == |digits| by {
      LeadingDigitsAll(digits);
    }
    assert body[..|digits|] == digits;
    DigitsValueOfNat(n);
  }

  lemma {:induction false} LeadingDigitsAll(ds: string)
    requires forall i :: 0 <= i < |ds| ==> IsDigit(ds[i])
    ensures LeadingDigits(ds) == |ds|
  {
    if |ds| > 0 {
      LeadingDigitsAll(ds[1..]);
    }
  }
}
