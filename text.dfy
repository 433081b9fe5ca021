/** The string operations the services and components rely on: ECMAScript's
    String.prototype.trim and Array.prototype.join, and the rendering of an
    integer inside a template literal. */
module Text {

  /** The code points String.prototype.trim strips: WhiteSpace (tab, vertical tab,
      form feed, space, no-break space, byte order mark and every space separator)
      and LineTerminator (line feed, carriage return, line and paragraph separator),
      as section 12.2 and 12.3 of ECMA-262 list them. */
  predicate IsTrimmable(c: char)
  {
    var n := c as int;
    n == 0x09 || n == 0x0A || n == 0x0B || n == 0x0C || n == 0x0D || n == 0x20 ||
    n == 0xA0 || n == 0x1680 || (0x2000 <= n <= 0x200A) || n == 0x2028 ||
    n == 0x2029 || n == 0x202F || n == 0x205F || n == 0x3000 || n == 0xFEFF
  }

  predicate AllTrimmable(s: string)
  {
    forall i {:trigger IsTrimmable(s[i])} :: 0 <= i < |s| ==> IsTrimmable(s[i])
  }

  /** The number of trimmable characters s starts with. */
  function Leading(s: string): (n: nat)
    ensures n <= |s|
    ensures forall k :: 0 <= k < n ==> IsTrimmable(s[k])
    ensures n < |s| ==> !IsTrimmable(s[n])
  {
    if s != [] && IsTrimmable(s[0]) then 1 + Leading(s[1..]) else 0
  }

  /** The number of trimmable characters s ends with. */
  function Trailing(s: string): (n: nat)
    ensures n <= |s|
    ensures forall k :: |s| - n <= k < |s| ==> IsTrimmable(s[k])
    ensures n < |s| ==> !IsTrimmable(s[|s| - 1 - n])
  {
    if s != [] && IsTrimmable(s[|s| - 1]) then 1 + Trailing(s[..|s| - 1]) else 0
  }

  /** String.prototype.trim: what lies between the trimmable prefix and the
      trimmable suffix, nothing when every character is trimmable. */
  function Trim(s: string): (r: string)
  {
    var i := Leading(s);
    if i == |s| then "" else s[i..|s| - Trailing(s)]
  }

  /** Trim returns the piece of its argument that starts after the trimmable
      prefix. */
  lemma TrimIsInnerSlice(s: string)
    ensures Leading(s) + |Trim(s)| <= |s| && Trim(s) == s[Leading(s)..Leading(s) + |Trim(s)|]
  {
    var i := Leading(s);
    if i < |s| {
      assert !IsTrimmable(s[i]) && i < |s| - Trailing(s);
    }
  }

  /** What Trim cuts off on either side is trimmable. */
  lemma TrimCutsOnlyTrimmable(s: string)
    ensures Leading(s) + |Trim(s)| <= |s|
    ensures AllTrimmable(s[..Leading(s)]) && AllTrimmable(s[Leading(s) + |Trim(s)|..])
  {
    var i := Leading(s);
    TrimIsInnerSlice(s);
    forall k | 0 <= k < i ensures IsTrimmable(s[..i][k]) {
      assert s[..i][k] == s[k];
    }
    var j := i + |Trim(s)|;
    if i < |s| {
      assert j == |s| - Trailing(s);
    }
    forall k | 0 <= k < |s| - j ensures IsTrimmable(s[j..][k]) {
      assert s[j..][k] == s[j + k];
    }
  }

  /** What Trim keeps neither begins nor ends with a trimmable character. */
  lemma TrimIsTight(s: string)
    ensures Trim(s) != [] ==> !IsTrimmable(Trim(s)[0]) && !IsTrimmable(Trim(s)[|Trim(s)| - 1])
  {
    var i, r := Leading(s), Trim(s);
    if i < |s| {
      var j := |s| - Trailing(s);
      assert !IsTrimmable(s[i]) && i < j;
      assert r[0] == s[i] && r[|r| - 1] == s[j - 1];
    }
  }

  /** Trim is the only cut with those properties: any piece s[i..j] with only
      trimmable characters before and after it, and none at its ends, is Trim(s). */
  lemma TrimUnique(s: string, i: nat, j: nat)
    requires i <= j <= |s|
    requires AllTrimmable(s[..i]) && AllTrimmable(s[j..])
    requires i < j ==> !IsTrimmable(s[i]) && !IsTrimmable(s[j - 1])
    ensures Trim(s) == s[i..j]
  {
    var l, t := Leading(s), Trailing(s);
    forall k | 0 <= k < i ensures IsTrimmable(s[k]) {
      assert s[k] == s[..i][k];
    }
    forall k | j <= k < |s| ensures IsTrimmable(s[k]) {
      assert s[k] == s[j..][k - j];
    }
    if i < j {
      assert l == i;
      assert |s| - t == j;
    } else {
      assert l == |s|;
    }
  }

  /** A string trims to the empty string exactly when every character is trimmable. */
  lemma TrimEmptyIff(s: string)
    ensures Trim(s) == "" <==> AllTrimmable(s)
  {
    var l := Leading(s);
    if AllTrimmable(s) {
      assert l == |s|;
    }
  }

  /** Trimming twice is trimming once. */
  lemma TrimIdempotent(s: string)
    ensures Trim(Trim(s)) == Trim(s)
  {
    var r := Trim(s);
    TrimIsTight(s);
    assert r[..0] == [] && r[|r|..] == [];
    TrimUnique(r, 0, |r|);
    assert r[0..|r|] == r;
  }

  /** Array.prototype.join: the strings in order with sep between neighbours. */
  function Join(ss: seq<string>, sep: string): (r: string)
    ensures ss == [] ==> r == ""
    ensures |ss| == 1 ==> r == ss[0]
  {
    if |ss| == 0 then ""
    else if |ss| == 1 then ss[0]
    else Join(ss[..|ss| - 1], sep) + sep + ss[|ss| - 1]
  }

  /** Joining from the front: the first string, the separator, then the join of the
      rest. Together with the definition, the join does not depend on where it starts. */
  lemma {:induction false} JoinCons(s: string, rest: seq<string>, sep: string)
    requires rest != []
    ensures Join([s] + rest, sep) == s + sep + Join(rest, sep)
  {
    var all := [s] + rest;
    if |rest| == 1 {
      assert all[..|all| - 1] == [s];
    } else {
      var init := rest[..|rest| - 1];
      assert all[..|all| - 1] == [s] + init;
      JoinCons(s, init, sep);
    }
  }

  /** The join of a concatenation is the two joins with one separator between them. */
  lemma {:induction false} JoinAppend(a: seq<string>, b: seq<string>, sep: string)
    requires a != [] && b != []
    ensures Join(a + b, sep) == Join(a, sep) + sep + Join(b, sep)
  {
    if |b| == 1 {
      assert (a + b)[..|a + b| - 1] == a;
    } else {
      var b' := b[..|b| - 1];
      assert (a + b)[..|a + b| - 1] == a + b';
      JoinAppend(a, b', sep);
    }
  }

  function DigitChar(d: int): (c: char)
    requires 0 <= d < 10
    ensures '0' <= c <= '9'
  {
    ['0', '1', '2', '3', '4', '5', '6', '7', '8', '9'][d]
  }

  predicate IsDigit(c: char) { '0' <= c <= '9' }

  /** The decimal digits of a natural number, most significant first, with no
      leading zero except for zero itself (Number::toString for integral values
      below 10^21). */
  function NatToDecimal(n: nat): (r: string)
    ensures r != []
    ensures forall i :: 0 <= i < |r| ==> IsDigit(r[i])
    ensures r[0] == '0' ==> n == 0
  {
    if n < 10 then [DigitChar(n)] else NatToDecimal(n / 10) + [DigitChar(n % 10)]
  }

  /** An integer as a template literal renders it: a minus sign exactly when it
      is negative, then decimal digits whose value is its magnitude, with no
      leading zero unless the number is 0. */
  function IntToDecimal(n: int): (r: string)
    ensures r != [] && (r[0] == '-' <==> n < 0)
    ensures forall i :: (if n < 0 then 1 else 0) <= i < |r| ==> IsDigit(r[i])
    ensures DecimalValue(r[(if n < 0 then 1 else 0)..]) == if n < 0 then -n else n
    ensures |r| > (if n < 0 then 1 else 0) && (r[if n < 0 then 1 else 0] == '0' ==> n == 0)
  {
    var digits := NatToDecimal(if n < 0 then -n else n);
    DecimalRoundTrip(if n < 0 then -n else n);
    var r := if n < 0 then "-" + digits else digits;
    assert r[(if n < 0 then 1 else 0)..] == digits;
    r
  }

  /** The value of a string of decimal digits (the digits-only part of parseInt). */
  function DecimalValue(s: string): (v: nat)
    requires forall i :: 0 <= i < |s| ==> IsDigit(s[i])
  {
    if s == [] then 0 else assert IsDigit(s[|s| - 1]); 10 * DecimalValue(s[..|s| - 1]) + (s[|s| - 1] as int - '0' as int)
  }

  lemma DigitCharValue(d: int)
    requires 0 <= d < 10
    ensures DigitChar(d) as int - '0' as int == d
  {
  }

  /** Reading the digits back gives the number: NatToDecimal loses nothing. */
  lemma {:induction false} DecimalRoundTrip(n: nat)
    ensures DecimalValue(NatToDecimal(n)) == n
  {
    var r := NatToDecimal(n);
    if n < 10 {
      DigitCharValue(n);
    } else {
      assert r[..|r| - 1] == NatToDecimal(n / 10);
      DecimalRoundTrip(n / 10);
      DigitCharValue(n % 10);
    }
  }
}
