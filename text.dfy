/** The string operations the source relies on: Python's `str.lower()`,
    `p in s`, `any(p in s for p in phrases)` and `sep.join(parts)`, and
    JavaScript's `startsWith`. */
module Text {

  /** `str.lower()` on one character; only the ASCII letters are folded. */
  function LowerChar(c: char): char
  {
    if 'A' <= c <= 'Z' then (c as int + 32) as char else c
  }

  /** `str.lower()`: as long as `s`, with no upper-case ASCII letter left,
      every other character kept, and each upper-case letter replaced by its
      lower-case partner. */
  function Lower(s: string): (r: string)
    ensures |r| == |s|
    ensures forall i :: 0 <= i < |r| ==> !('A' <= r[i] <= 'Z')
    ensures forall i :: 0 <= i < |s| && !('A' <= s[i] <= 'Z') ==> r[i] == s[i]
    ensures forall i :: 0 <= i < |s| && 'A' <= s[i] <= 'Z' ==> r[i] as int == s[i] as int + 32
  {
    seq(|s|, i requires 0 <= i < |s| => LowerChar(s[i]))
  }

  lemma LowerConcat(a: string, b: string)
    ensures Lower(a + b) == Lower(a) + Lower(b)
  {
  }

  /** Lowering twice is lowering once, so a text that is already lower-case
      (as the recognizer returns it) is unchanged by `lower()`. */
  lemma LowerIdempotent(s: string)
    ensures Lower(Lower(s)) == Lower(s)
  {
  }

  /** No element occurs twice. */
  predicate Distinct<T(==)>(s: seq<T>)
  {
    forall i, j :: 0 <= i < j < |s| ==> s[i] != s[j]
  }

  /** JavaScript's `s.startsWith(p)`. */
  predicate StartsWith(s: string, p: string)
  {
    |p| <= |s| && s[..|p|] == p
  }

  ghost predicate OccursAt(s: string, p: string, i: int)
  {
    0 <= i && i + |p| <= |s| && s[i..i + |p|] == p
  }

  /** Python's `p in s` for strings: `p` occurs in `s` at some position. */
  function Contains(s: string, p: string): bool
    decreases |s|
  {
    if |p| > |s| then false
    else if s[..|p|] == p then true
    else Contains(s[1..], p)
  }

  /** The scan finds an occurrence exactly when there is one. */
  lemma {:induction false} ContainsMeans(s: string, p: string)
    ensures Contains(s, p) <==> exists i :: OccursAt(s, p, i)
    decreases |s|
  {
    if |p| <= |s| {
      if s[..|p|] == p {
        assert OccursAt(s, p, 0);
      } else {
        ContainsShift(s, p);
        ContainsMeans(s[1..], p);
      }
    }
  }

  lemma ContainsShift(s: string, p: string)
    requires |p| <= |s| && s[..|p|] != p
    ensures |s| > 0
    ensures (exists i :: OccursAt(s, p, i)) <==> (exists i :: OccursAt(s[1..], p, i))
  {
    forall i | OccursAt(s[1..], p, i)
      ensures OccursAt(s, p, i + 1)
    {
      assert s[1..][i..i + |p|] == s[i + 1..i + 1 + |p|];
    }
    forall i | OccursAt(s, p, i)
      ensures OccursAt(s[1..], p, i - 1)
    {
      assert i != 0;
      assert s[1..][i - 1..i - 1 + |p|] == s[i..i + |p|];
    }
  }

  /** An occurrence inside `t` is an occurrence inside any text that has `t`
      in the middle. */
  lemma {:induction false} ContainsInContext(x: string, t: string, y: string, p: string)
    requires Contains(t, p)
    ensures Contains(x + t + y, p)
  {
    ContainsMeans(t, p);
    ContainsMeans(x + t + y, p);
    var i :| OccursAt(t, p, i);
    var s := x + t + y;
    assert s[|x| + i..|x| + i + |p|] == t[i..i + |p|];
    assert OccursAt(s, p, |x| + i);
  }

  /** An occurrence of `q` inside an occurrence of `p` is an occurrence in `s`. */
  lemma {:induction false} ContainsTransitive(s: string, p: string, q: string)
    requires Contains(s, p) && Contains(p, q)
    ensures Contains(s, q)
  {
    ContainsMeans(s, p);
    ContainsMeans(p, q);
    ContainsMeans(s, q);
    var i :| OccursAt(s, p, i);
    var j :| OccursAt(p, q, j);
    forall k | 0 <= k < |q|
      ensures s[i + j + k] == q[k]
    {
      assert q[k] == p[j..j + |q|][k] == p[j + k];
      assert p[j + k] == s[i..i + |p|][j + k];
    }
    assert s[i + j..i + j + |q|] == q;
    assert OccursAt(s, q, i + j);
  }

  /** Python's `any(p in s for p in phrases)`. */
  function ContainsAny(s: string, phrases: seq<string>): (r: bool)
    ensures r <==> exists k :: 0 <= k < |phrases| && Contains(s, phrases[k])
  {
    if phrases == [] then false
    else
      assert forall k :: 1 <= k < |phrases| ==> phrases[1..][k - 1] == phrases[k];
      Contains(s, phrases[0]) || ContainsAny(s, phrases[1..])
  }

  /** Python's `sep.join(parts)`. */
  function Join(parts: seq<string>, sep: string): string
  {
    if |parts| == 0 then ""
    else if |parts| == 1 then parts[0]
    else parts[0] + sep + Join(parts[1..], sep)
  }

  /** Where `parts[i]` starts in `Join(parts, sep)`: the lengths of the parts
      before it and one separator after each of them. */
  function Offset(parts: seq<string>, sep: string, i: nat): nat
    requires i <= |parts|
  {
    if i == 0 then 0 else |parts[0]| + |sep| + Offset(parts[1..], sep, i - 1)
  }

  lemma {:induction false} OffsetStep(parts: seq<string>, sep: string, i: nat)
    requires i < |parts|
    ensures Offset(parts, sep, i + 1) == Offset(parts, sep, i) + |parts[i]| + |sep|
  {
    if i > 0 {
      OffsetStep(parts[1..], sep, i - 1);
    }
  }

  /** Character `k` of part `i` is character `Offset(parts, sep, i) + k`
      of the joined string. */
  lemma {:induction false} JoinChar(parts: seq<string>, sep: string, i: nat, k: nat)
    requires i < |parts| && k < |parts[i]|
    ensures Offset(parts, sep, i) + k < |Join(parts, sep)|
    ensures Join(parts, sep)[Offset(parts, sep, i) + k] == parts[i][k]
  {
    if |parts| > 1 {
      var head, rest := parts[0] + sep, Join(parts[1..], sep);
      assert Join(parts, sep) == head + rest;
      if i > 0 {
        assert parts[1..][i - 1] == parts[i];
        JoinChar(parts[1..], sep, i - 1, k);
      }
    }
  }

  /** Part `i` sits at `Offset(parts, sep, i)`. */
  lemma JoinPart(parts: seq<string>, sep: string, i: nat)
    requires i < |parts|
    ensures Offset(parts, sep, i) + |parts[i]| <= |Join(parts, sep)|
    ensures Join(parts, sep)[Offset(parts, sep, i)..Offset(parts, sep, i) + |parts[i]|] == parts[i]
  {
    var o, n := Offset(parts, sep, i), |parts[i]|;
    if n > 0 {
      JoinChar(parts, sep, i, n - 1);
    }
    forall k | 0 <= k < n
      ensures Join(parts, sep)[o + k] == parts[i][k]
    {
      JoinChar(parts, sep, i, k);
    }
  }

  /** The last part ends the joined string. */
  lemma {:induction false} JoinLength(parts: seq<string>, sep: string)
    requires |parts| > 0
    ensures |Join(parts, sep)| == Offset(parts, sep, |parts| - 1) + |parts[|parts| - 1]|
  {
    if |parts| > 1 {
      JoinLength(parts[1..], sep);
      assert parts[1..][|parts| - 2] == parts[|parts| - 1];
    }
  }

  /** Character `k` of the separator after part `i` (not the last) is
      character `Offset(parts, sep, i) + |parts[i]| + k` of the joined
      string. */
  lemma {:induction false} JoinSeparatorChar(parts: seq<string>, sep: string, i: nat, k: nat)
    requires i + 1 < |parts| && k < |sep|
    ensures Offset(parts, sep, i) + |parts[i]| + k < |Join(parts, sep)|
    ensures Join(parts, sep)[Offset(parts, sep, i) + |parts[i]| + k] == sep[k]
  {
    var head, rest := parts[0] + sep, Join(parts[1..], sep);
    assert Join(parts, sep) == head + rest;
    if i > 0 {
      assert parts[1..][i - 1] == parts[i];
      JoinSeparatorChar(parts[1..], sep, i - 1, k);
    }
  }

  /** The separator follows every part but the last. */
  lemma JoinSeparator(parts: seq<string>, sep: string, i: nat)
    requires i + 1 < |parts|
    ensures Offset(parts, sep, i) + |parts[i]| + |sep| <= |Join(parts, sep)|
    ensures Join(parts, sep)[Offset(parts, sep, i) + |parts[i]|..Offset(parts, sep, i) + |parts[i]| + |sep|] == sep
  {
    var e := Offset(parts, sep, i) + |parts[i]|;
    if |sep| > 0 {
      JoinSeparatorChar(parts, sep, i, |sep| - 1);
    } else {
      JoinPart(parts, sep, i);
    }
    forall k | 0 <= k < |sep|
      ensures Join(parts, sep)[e + k] == sep[k]
    {
      JoinSeparatorChar(parts, sep, i, k);
    }
  }

  /** The joined string is the parts laid end to end with one separator
      between neighbours: part `i` sits at `Offset(parts, sep, i)`, the
      separator follows it unless it is the last part, and the last part ends
      the string. */
  lemma JoinAt(parts: seq<string>, sep: string, i: nat)
    requires i < |parts|
    ensures Offset(parts, sep, i) + |parts[i]| <= |Join(parts, sep)|
    ensures Join(parts, sep)[Offset(parts, sep, i)..Offset(parts, sep, i) + |parts[i]|] == parts[i]
    ensures Offset(parts, sep, i + 1) == Offset(parts, sep, i) + |parts[i]| + |sep|
    ensures i + 1 < |parts| ==> Offset(parts, sep, i + 1) <= |Join(parts, sep)|
    ensures i + 1 < |parts| ==>
              Join(parts, sep)[Offset(parts, sep, i) + |parts[i]|..Offset(parts, sep, i + 1)] == sep
    ensures i + 1 == |parts| ==> |Join(parts, sep)| == Offset(parts, sep, i) + |parts[i]|
  {
    OffsetStep(parts, sep, i);
    JoinPart(parts, sep, i);
    if i + 1 < |parts| {
      JoinSeparator(parts, sep, i);
    } else {
      JoinLength(parts, sep);
    }
  }

  /** One decimal digit. */
  function DigitChar(d: nat): char
    requires d < 10
  {
    ('0' as int + d) as char
  }

  predicate IsDigit(c: char)
  {
    '0' <= c <= '9'
  }

  /** Python's `str(n)` for a non-negative integer: its decimal digits, most
      significant first, with no leading zero. */
  function NatToDecimal(n: nat): string
    decreases n
  {
    if n < 10 then [DigitChar(n)] else NatToDecimal(n / 10) + [DigitChar(n % 10)]
  }

  /** Python's `str(i)` for any integer. */
  function IntToDecimal(i: int): string
  {
    if i < 0 then "-" + NatToDecimal(-i) else NatToDecimal(i)
  }

  /** The number a string of decimal digits denotes. */
  function DecimalValue(s: string): nat
    requires forall k :: 0 <= k < |s| ==> IsDigit(s[k])
  {
    if s == [] then 0
    else
      assert IsDigit(s[|s| - 1]);
      DecimalValue(s[..|s| - 1]) * 10 + (s[|s| - 1] as int - '0' as int)
  }

  /** `str(n)` is a non-empty string of digits that does not start with "0"
      unless it is "0", and reading it back gives `n`. */
  lemma {:induction false} NatToDecimalRoundTrip(n: nat)
    ensures |NatToDecimal(n)| > 0
    ensures forall k :: 0 <= k < |NatToDecimal(n)| ==> IsDigit(NatToDecimal(n)[k])
    ensures NatToDecimal(n)[0] == '0' <==> n == 0
    ensures DecimalValue(NatToDecimal(n)) == n
  {
    if n >= 10 {
      NatToDecimalRoundTrip(n / 10);
      var s := NatToDecimal(n);
      assert s[..|s| - 1] == NatToDecimal(n / 10);
    }
  }
}
