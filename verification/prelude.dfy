/**
  Values and string operations the components rely on: nullable values,
  JavaScript truthiness of a `string | null`, `toLowerCase` (ASCII letters),
  `includes`, `Number.prototype.toString` on naturals and `padStart`.
 */
module Prelude {

  datatype Option<+T> = None | Some(value: T)

  /** JavaScript truthiness of a `string | null`: null and "" are falsy. */
  predicate Truthy(o: Option<string>)
  {
    o.Some? && o.value != ""
  }

  // ---------------------------------------------------------------------
  // toLowerCase
  // ---------------------------------------------------------------------

  function LowerChar(c: char): char
  {
    if 'A' <= c <= 'Z' then (c as int + 32) as char else c
  }

  function ToLower(s: string): (lower: string)
    ensures |lower| == |s|
    ensures forall i :: 0 <= i < |s| ==> lower[i] == LowerChar(s[i])
  {
    if s == [] then [] else [LowerChar(s[0])] + ToLower(s[1..])
  }

  /** Lower-casing an already lower-cased text changes nothing. */
  lemma {:induction false} ToLowerIdempotent(s: string)
    ensures ToLower(ToLower(s)) == ToLower(s)
  {
    if s != [] {
      ToLowerIdempotent(s[1..]);
      assert ToLower(s) == [LowerChar(s[0])] + ToLower(s[1..]);
      assert ToLower(s)[1..] == ToLower(s[1..]);
    }
  }

  /** Every character of a lower-cased text is the lower case of a character of the text. */
  lemma {:induction false} ToLowerOrigin(s: string, c: char)
    requires c in ToLower(s)
    ensures exists x :: x in s && LowerChar(x) == c
  {
    if LowerChar(s[0]) != c {
      ToLowerOrigin(s[1..], c);
      var x :| x in s[1..] && LowerChar(x) == c;
      assert x in s;
    }
  }

  /** A character that no character of `s` lower-cases to is absent from `ToLower(s)`. */
  lemma ToLowerAvoids(s: string, c: char)
    requires forall x :: x in s ==> LowerChar(x) != c
    ensures c !in ToLower(s)
  {
    if c in ToLower(s) {
      ToLowerOrigin(s, c);
    }
  }

  /** Removing the entry at `i` keeps every other value that was there. */
  lemma RemoveKeepsOther<T>(s: seq<T>, i: nat, x: T)
    requires i < |s| && x in s && s[i] != x
    ensures x in s[..i] + s[i + 1..]
  {
    var j :| 0 <= j < |s| && s[j] == x;
    var rest := s[..i] + s[i + 1..];
    if j < i {
      assert rest[j] == x;
    } else {
      assert rest[j - 1] == x;
    }
  }

  // ---------------------------------------------------------------------
  // includes
  // ---------------------------------------------------------------------

  predicate StartsWith(s: string, prefix: string)
  {
    |prefix| <= |s| && s[..|prefix|] == prefix
  }

  /** `s.includes(sub)`, scanning the start positions from left to right. */
  predicate Contains(s: string, sub: string)
    ensures sub == [] ==> Contains(s, sub)
    ensures Contains(s, sub) ==> |sub| <= |s|
    decreases |s|
  {
    StartsWith(s, sub) || (s != [] && Contains(s[1..], sub))
  }

  /** `sub` occurs in `s` starting at position `i`. */
  predicate OccursAt(s: string, sub: string, i: int)
  {
    0 <= i && i + |sub| <= |s| && s[i..i + |sub|] == sub
  }

  /** The scan agrees with the definition of a substring by position, both ways. */
  lemma {:induction false} ContainsAtSomePosition(s: string, sub: string)
    ensures Contains(s, sub) <==> exists i :: OccursAt(s, sub, i)
    decreases |s|
  {
    if StartsWith(s, sub) {
      assert OccursAt(s, sub, 0);
    } else if s != [] {
      ContainsAtSomePosition(s[1..], sub);
      if Contains(s[1..], sub) {
        var i :| OccursAt(s[1..], sub, i);
        assert s[1..][i..i + |sub|] == s[i + 1..i + 1 + |sub|];
        assert OccursAt(s, sub, i + 1);
      }
      if exists i :: OccursAt(s, sub, i) {
        var i :| OccursAt(s, sub, i);
        assert i != 0;
        assert s[1..][i - 1..i - 1 + |sub|] == s[i..i + |sub|];
        assert OccursAt(s[1..], sub, i - 1);
      }
    }
  }

  /** A text that includes `sub` holds every character of `sub`. */
  lemma ContainsHasChar(s: string, sub: string, c: char)
    requires Contains(s, sub) && c in sub
    ensures c in s
  {
    ContainsAtSomePosition(s, sub);
    var i :| OccursAt(s, sub, i);
    var k :| 0 <= k < |sub| && sub[k] == c;
    assert s[i..i + |sub|][k] == s[i + k];
  }

  // ---------------------------------------------------------------------
  // toString and padStart on naturals
  // ---------------------------------------------------------------------

  function Digit(d: nat): char
    requires d < 10
  {
    ('0' as int + d) as char
  }

  function DigitValue(c: char): nat
  {
    if '0' <= c <= '9' then c as int - '0' as int else 0
  }

  /** The decimal numeral of `n`, most significant digit first, without leading zeros. */
  function Decimal(n: nat): (digits: string)
    ensures 1 <= |digits|
    ensures forall k :: 0 <= k < |digits| ==> '0' <= digits[k] <= '9'
    ensures digits[0] == '0' <==> n == 0
  {
    if n < 10 then [Digit(n)] else Decimal(n / 10) + [Digit(n % 10)]
  }

  /** The value of a numeral, read from its last digit backwards. */
  function ParseDecimal(s: string): nat
  {
    if s == [] then 0 else ParseDecimal(s[..|s| - 1]) * 10 + DigitValue(s[|s| - 1])
  }

  function Repeat(c: char, n: nat): (r: string)
    ensures |r| == n
    ensures forall k :: 0 <= k < n ==> r[k] == c
  {
    if n == 0 then [] else [c] + Repeat(c, n - 1)
  }

  /** `s.padStart(width, c)`. */
  function PadStart(s: string, width: nat, c: char): (padded: string)
    ensures |padded| == if |s| >= width then |s| else width
    ensures padded[|padded| - |s|..] == s
    ensures forall k :: 0 <= k < |padded| - |s| ==> padded[k] == c
  {
    if |s| >= width then s else Repeat(c, width - |s|) + s
  }

  lemma {:induction false} DecimalRoundTrip(n: nat)
    ensures ParseDecimal(Decimal(n)) == n
    ensures 1 <= |Decimal(n)|
  {
    if n >= 10 {
      DecimalRoundTrip(n / 10);
      var s := Decimal(n);
      assert s[..|s| - 1] == Decimal(n / 10);
    }
  }

  /** A zero in front of a numeral does not change its value. */
  lemma {:induction false} LeadingZero(s: string)
    ensures ParseDecimal(['0'] + s) == ParseDecimal(s)
    decreases |s|
  {
    if s != [] {
      var t := ['0'] + s;
      assert t[..|t| - 1] == ['0'] + s[..|s| - 1];
      LeadingZero(s[..|s| - 1]);
    }
  }

  lemma {:induction false} LeadingZeros(n: nat, s: string)
    ensures ParseDecimal(Repeat('0', n) + s) == ParseDecimal(s)
  {
    if n > 0 {
      var rest := Repeat('0', n - 1) + s;
      calc {
        ParseDecimal(Repeat('0', n) + s);
        { assert Repeat('0', n) + s == ['0'] + rest; }
        ParseDecimal(['0'] + rest);
        { LeadingZero(rest); }
        ParseDecimal(rest);
        { LeadingZeros(n - 1, s); }
        ParseDecimal(s);
      }
    } else {
      assert Repeat('0', n) + s == s;
    }
  }

  /** Zero-padding a numeral to any width keeps its value: `padStart` is undone by parsing. */
  lemma {:induction false} PaddedDecimalRoundTrip(n: nat, width: nat)
    ensures ParseDecimal(PadStart(Decimal(n), width, '0')) == n
    ensures |PadStart(Decimal(n), width, '0')| == if |Decimal(n)| >= width then |Decimal(n)| else width
  {
    DecimalRoundTrip(n);
    if |Decimal(n)| < width {
      LeadingZeros(width - |Decimal(n)|, Decimal(n));
    }
  }
}
