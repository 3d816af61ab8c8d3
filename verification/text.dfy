/**
  String operations of the JavaScript runtime that the components rely on:
  `String.prototype.trim`, `includes`, `slice(-n)`, the regular-expression
  class `\s`, and the decimal rendering of an integer in a template literal.
 */
module Text {
  import opened Prelude

  /** The characters JavaScript's `trim` and the regular-expression class `\s`
      treat as white space: WhiteSpace and LineTerminator of ECMAScript. */
  predicate IsJsWhitespace(c: char)
  {
    var n := c as int;
    n == 0x09 || n == 0x0A || n == 0x0B || n == 0x0C || n == 0x0D || n == 0x20 ||
    n == 0xA0 || n == 0x1680 || (0x2000 <= n <= 0x200A) || n == 0x2028 || n == 0x2029 ||
    n == 0x202F || n == 0x205F || n == 0x3000 || n == 0xFEFF
  }

  /** Every character of `s` is white space (vacuously true of ""). */
  predicate IsBlank(s: string)
  {
    forall i :: 0 <= i < |s| ==> IsJsWhitespace(s[i])
  }

  /** Removes leading white space. */
  function TrimStart(s: string): (r: string)
    ensures |r| <= |s| && r == s[|s| - |r|..]
    ensures |r| > 0 ==> !IsJsWhitespace(r[0])
    ensures IsBlank(s[..|s| - |r|])
  {
    if |s| > 0 && IsJsWhitespace(s[0]) then TrimStart(s[1..]) else s
  }

  /** Removes trailing white space. */
  function TrimEnd(s: string): (r: string)
    ensures |r| <= |s| && r == s[..|r|]
    ensures |r| > 0 ==> !IsJsWhitespace(r[|r| - 1])
    ensures IsBlank(s[|r|..])
  {
    if |s| > 0 && IsJsWhitespace(s[|s| - 1]) then TrimEnd(s[..|s| - 1]) else s
  }

  /** `s.trim()`: a contiguous piece of `s` with no white space at either
      end; it is empty iff `s` is blank. `TrimDropsOnlyBlanks` shows that what
      it drops on either side is white space. */
  function Trim(s: string): (r: string)
    ensures |r| <= |s|
    ensures |r| > 0 ==> !IsJsWhitespace(r[0]) && !IsJsWhitespace(r[|r| - 1])
    ensures |r| == 0 <==> IsBlank(s)
  {
    var left := TrimStart(s);
    var r := TrimEnd(left);
    TrimFacts(s, left, r, |s| - |left|);
    r
  }

  /** `r` is the slice of `s` starting at `k`, and what lies on either side
      of it is white space. */
  predicate SliceBetweenBlanks(s: string, r: string, k: int)
  {
    0 <= k && k + |r| <= |s| && r == s[k..k + |r|] && IsBlank(s[..k]) && IsBlank(s[k + |r|..])
  }

  /** `Trim(s)` is what is left of `s` after dropping a blank prefix and a
      blank suffix. */
  lemma TrimDropsOnlyBlanks(s: string)
    ensures exists k :: SliceBetweenBlanks(s, Trim(s), k)
  {
    var left := TrimStart(s);
    var r := TrimEnd(left);
    assert r == Trim(s);
    TrimFacts(s, left, r, |s| - |left|);
    assert SliceBetweenBlanks(s, r, |s| - |left|);
  }

  /** The sequence facts behind `Trim`: what the two halves drop is blank. */
  lemma TrimFacts(s: string, left: string, r: string, k: nat)
    requires k <= |s| && left == s[k..] && IsBlank(s[..k])
    requires |left| > 0 ==> !IsJsWhitespace(left[0])
    requires |r| <= |left| && r == left[..|r|] && IsBlank(left[|r|..])
    requires |r| > 0 ==> !IsJsWhitespace(r[|r| - 1])
    ensures |r| <= |s|
    ensures |r| > 0 ==> !IsJsWhitespace(r[0]) && !IsJsWhitespace(r[|r| - 1])
    ensures k + |r| <= |s| && r == s[k..k + |r|] && IsBlank(s[..k]) && IsBlank(s[k + |r|..])
    ensures |r| == 0 <==> IsBlank(s)
  {
    assert s[k + |r|..] == left[|r|..];
    if |r| == 0 {
      BlankConcat(s[..k], left);
      assert s == s[..k] + left;
    } else {
      assert s[k] == left[0];
      assert r[0] == left[0];
    }
  }

  lemma BlankConcat(a: string, b: string)
    requires IsBlank(a) && IsBlank(b)
    ensures IsBlank(a + b)
  {
    assert forall i :: 0 <= i < |a + b| ==> (a + b)[i] == if i < |a| then a[i] else b[i - |a|];
  }

  /** `displayName.replace(/\s+/g, '')`: every white-space character removed. */
  function RemoveWhitespace(s: string): (r: string)
    ensures forall i :: 0 <= i < |r| ==> !IsJsWhitespace(r[i])
    ensures forall i :: 0 <= i < |s| && !IsJsWhitespace(s[i]) ==> s[i] in r
    ensures |r| == |s| <==> (forall i :: 0 <= i < |s| ==> !IsJsWhitespace(s[i]))
  {
    Filter(s, c => !IsJsWhitespace(c))
  }

  /** A string with no white space is left as it is by `RemoveWhitespace`. */
  lemma {:induction false} RemoveWhitespaceIdentity(s: string)
    requires forall i :: 0 <= i < |s| ==> !IsJsWhitespace(s[i])
    ensures RemoveWhitespace(s) == s
  {
    if |s| > 0 {
      RemoveWhitespaceIdentity(s[1..]);
      assert s == [s[0]] + s[1..];
    }
  }

  /** Removing white space distributes over concatenation. */
  lemma RemoveWhitespaceAppend(a: string, b: string)
    ensures RemoveWhitespace(a + b) == RemoveWhitespace(a) + RemoveWhitespace(b)
  {
    FilterAppend(a, b, c => !IsJsWhitespace(c));
  }

  /** A single character is dropped iff it is white space. */
  lemma RemoveWhitespaceChar(c: char)
    ensures RemoveWhitespace([c]) == if IsJsWhitespace(c) then "" else [c]
  {
  }

  /** `s.slice(-n)` for a positive `n`: the last `n` characters, or all of `s` when shorter. */
  function TakeLast(s: string, n: nat): (r: string)
    requires n > 0
    ensures |r| == if |s| < n then |s| else n
    ensures r == s[|s| - |r|..]
  {
    if |s| <= n then s else s[|s| - n..]
  }

  /** `sub` occurs in `s` starting at index `i`. */
  predicate OccursAt(s: string, sub: string, i: int)
  {
    0 <= i && i + |sub| <= |s| && s[i..i + |sub|] == sub
  }

  /** `s.includes(sub)`. */
  function Includes(s: string, sub: string): (r: bool)
    ensures r <==> exists i :: OccursAt(s, sub, i)
  {
    if |sub| > |s| then
      assert forall i :: !OccursAt(s, sub, i);
      false
    else if s[..|sub|] == sub then
      assert OccursAt(s, sub, 0);
      true
    else
      var r := Includes(s[1..], sub);
      assert forall i :: OccursAt(s[1..], sub, i) ==> OccursAt(s, sub, i + 1) by {
        forall i | OccursAt(s[1..], sub, i) ensures OccursAt(s, sub, i + 1) {
          assert s[1..][i..i + |sub|] == s[i + 1..i + 1 + |sub|];
        }
      }
      assert forall i :: OccursAt(s, sub, i) && i > 0 ==> OccursAt(s[1..], sub, i - 1) by {
        forall i | OccursAt(s, sub, i) && i > 0 ensures OccursAt(s[1..], sub, i - 1) {
          assert s[1..][i - 1..i - 1 + |sub|] == s[i..i + |sub|];
        }
      }
      r
  }

  /** A string always includes any piece it is built around. */
  lemma IncludesInfix(a: string, sub: string, b: string)
    ensures Includes(a + sub + b, sub)
  {
    assert OccursAt(a + sub + b, sub, |a|) by {
      assert (a + sub + b)[|a|..|a| + |sub|] == sub;
    }
  }

  /** The decimal digit character for `d`. */
  function DigitChar(d: nat): char
    requires d < 10
  {
    "0123456789"[d]
  }

  /** The digit value of a character, if it is a decimal digit. */
  function DigitValue(c: char): Option<nat>
  {
    if '0' <= c <= '9' then Some(c as int - '0' as int) else None
  }

  /** Decimal rendering of a natural number, as a JavaScript template literal prints it. */
  function NatToString(n: nat): (r: string)
    ensures |r| > 0
    ensures forall i :: 0 <= i < |r| ==> DigitValue(r[i]).Some?
    ensures |r| > 1 ==> r[0] != '0'
  {
    if n < 10 then [DigitChar(n)] else NatToString(n / 10) + [DigitChar(n % 10)]
  }

  /** Reads a string of decimal digits back as a number (the inverse of `NatToString`). */
  function ParseNat(s: string): nat
  {
    if |s| == 0 then 0
    else
      match DigitValue(s[|s| - 1])
      case Some(d) => ParseNat(s[..|s| - 1]) * 10 + d
      case None => 0
  }

  /** Reading the rendering of `n` gives back `n`. */
  lemma {:induction false} ParseNatRoundTrip(n: nat)
    ensures ParseNat(NatToString(n)) == n
  {
    if n >= 10 {
      var s := NatToString(n);
      assert s[..|s| - 1] == NatToString(n / 10);
      ParseNatRoundTrip(n / 10);
    }
  }

  /** `${n}` for an integer `n`: a minus sign before the digits of `|n|` when negative. */
  function IntToString(n: int): (r: string)
    ensures |r| > 0
    ensures n < 0 <==> r[0] == '-'
  {
    if n < 0 then "-" + NatToString(-n) else NatToString(n)
  }

  /** Reads the rendering of an integer back. */
  function ParseInt(s: string): int
  {
    if |s| > 0 && s[0] == '-' then 0 - ParseNat(s[1..]) else ParseNat(s)
  }

  /** Reading the rendering of `n` gives back `n`. */
  lemma IntToStringRoundTrip(n: int)
    ensures ParseInt(IntToString(n)) == n
  {
    var s := IntToString(n);
    if n < 0 {
      ParseNatRoundTrip(-n);
      assert s[0] == '-' && s[1..] == NatToString(-n);
    } else {
      ParseNatRoundTrip(n);
      assert s == NatToString(n) && DigitValue(s[0]).Some?;
    }
  }

  /** Different integers render differently. */
  lemma IntToStringInjective(a: int, b: int)
    requires IntToString(a) == IntToString(b)
    ensures a == b
  {
    IntToStringRoundTrip(a);
    IntToStringRoundTrip(b);
  }
}
