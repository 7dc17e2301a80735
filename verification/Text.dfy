/** Splitting, joining and decimal numbers, as the Rust standard library has them. */
module Text {
  import opened Types

  /** Around the first `c`. */
  function SplitOnce(s: string, c: char): (r: Option<(string, string)>)
    ensures r.None? <==> c !in s
    ensures r.Some? ==> s == r.value.0 + [c] + r.value.1 && c !in r.value.0
  {
    if s == "" then None
    else if s[0] == c then Some(("", s[1..]))
    else match SplitOnce(s[1..], c)
      case None => None
      case Some((a, b)) => Some(([s[0]] + a, b))
  }

  /** Around the last `c`. */
  function RSplitOnce(s: string, c: char): (r: Option<(string, string)>)
    ensures r.None? <==> c !in s
    ensures r.Some? ==> s == r.value.0 + [c] + r.value.1 && c !in r.value.1
  {
    if s == "" then None
    else
      var n := |s| - 1;
      assert s == s[..n] + [s[n]];
      if s[n] == c then Some((s[..n], ""))
      else match RSplitOnce(s[..n], c)
        case None => None
        case Some((a, b)) => Some((a, b + [s[n]]))
  }

  lemma FirstIsUnique(a: string, b: string, a': string, b': string, c: char)
    requires a + [c] + b == a' + [c] + b' && c !in a && c !in a'
    ensures a == a' && b == b'
  {
    var s := a + [c] + b;
    assert s[|a|] == c && s[|a'|] == c;
    assert forall i | 0 <= i < |a| :: s[i] == a[i] && a[i] != c;
    assert forall i | 0 <= i < |a'| :: s[i] == a'[i] && a'[i] != c;
    assert a == s[..|a|] && a' == s[..|a'|];
    assert b == s[|a| + 1..] && b' == s[|a'| + 1..];
  }

  lemma LastIsUnique(a: string, b: string, a': string, b': string, c: char)
    requires a + [c] + b == a' + [c] + b' && c !in b && c !in b'
    ensures a == a' && b == b'
  {
    var s := a + [c] + b;
    assert s[|a|] == c && s[|a'|] == c;
    assert forall i | |a| < i < |s| :: s[i] == b[i - |a| - 1] && s[i] != c;
    assert forall i | |a'| < i < |s| :: s[i] == b'[i - |a'| - 1] && s[i] != c;
    assert a == s[..|a|] && a' == s[..|a'|];
    assert b == s[|a| + 1..] && b' == s[|a'| + 1..];
  }

  /** The text before `c` comes back from the first split iff it has no `c`. */
  lemma SplitOnceUndoes(a: string, c: char, b: string)
    ensures SplitOnce(a + [c] + b, c).Some?
    ensures c !in a ==> SplitOnce(a + [c] + b, c) == Some((a, b))
    ensures c in a ==> SplitOnce(a + [c] + b, c).value.0 != a
  {
    var s := a + [c] + b;
    assert s[|a|] == c;
    var r := SplitOnce(s, c).value;
    if c !in a { FirstIsUnique(a, b, r.0, r.1, c); }
  }

  /** The text after `c` comes back from the last split iff it has no `c`. */
  lemma RSplitOnceUndoes(a: string, c: char, b: string)
    ensures RSplitOnce(a + [c] + b, c).Some?
    ensures c !in b ==> RSplitOnce(a + [c] + b, c) == Some((a, b))
    ensures c in b ==> |RSplitOnce(a + [c] + b, c).value.1| < |b|
  {
    assert (a + [c] + b)[|a|] == c;
    if c in b { RSplitOnceIsShorter(a, c, b); } else { RSplitOnceIsSame(a, c, b); }
  }

  lemma RSplitOnceIsSame(a: string, c: char, b: string)
    requires c !in b
    ensures RSplitOnce(a + [c] + b, c) == Some((a, b))
  {
    hide RSplitOnce;
    assert (a + [c] + b)[|a|] == c;
    var (a', b') := RSplitOnce(a + [c] + b, c).value;
    LastIsUnique(a, b, a', b', c);
  }

  /** A later `c` cuts off less. */
  lemma RSplitOnceIsShorter(a: string, c: char, b: string)
    requires c in b
    ensures RSplitOnce(a + [c] + b, c).Some? && |RSplitOnce(a + [c] + b, c).value.1| < |b|
  {
    hide RSplitOnce;
    var s := a + [c] + b;
    var k := AfterSeparator(a, c, b);
    var (a', b') := RSplitOnce(s, c).value;
    LastIsAfter(s, a', b', c, k);
    assert |s| == |a'| + 1 + |b'|;
  }

  lemma AfterSeparator(a: string, c: char, b: string) returns (k: nat)
    requires c in b
    ensures |a| < k < |a + [c] + b| && (a + [c] + b)[k] == c
  {
    var j :| 0 <= j < |b| && b[j] == c;
    k := |a| + 1 + j;
  }

  lemma LastIsAfter(s: string, a: string, b: string, c: char, k: nat)
    requires s == a + [c] + b && c !in b && k < |s| && s[k] == c
    ensures k <= |a|
  {
    assert forall i | |a| < i < |s| :: s[i] == b[i - |a| - 1] && s[i] != c;
  }

  /** Around the first `]:`. */
  function SplitBracket(s: string): (r: Option<(string, string)>)
    ensures r.Some? ==> s == r.value.0 + "]:" + r.value.1
  {
    if |s| < 2 then None
    else if s[0] == ']' && s[1] == ':' then Some(("", s[2..]))
    else match SplitBracket(s[1..])
      case None => None
      case Some((a, b)) => Some(([s[0]] + a, b))
  }

  lemma {:induction false} SplitBracketUndoes(a: string, b: string)
    requires ']' !in a
    ensures SplitBracket(a + "]:" + b) == Some((a, b))
  {
    var s := a + "]:" + b;
    if a == "" {
      assert s[0] == ']' && s[1] == ':' && s[2..] == b;
    } else {
      SplitBracketUndoes(a[1..], b);
      assert s[0] == a[0] && s[1..] == a[1..] + "]:" + b;
      assert [a[0]] + a[1..] == a;
    }
  }

  // ----- decimal numbers -----

  predicate IsDigit(c: char) { '0' <= c <= '9' }

  predicate AllDigits(s: string) { forall i | 0 <= i < |s| :: IsDigit(s[i]) }

  function Value(s: string): nat
    requires AllDigits(s)
  {
    if s == "" then 0 else 10 * Value(s[..|s| - 1]) + (s[|s| - 1] as nat - '0' as nat)
  }

  function Digit(d: nat): char
    requires d < 10
  {
    ('0' as nat + d) as char
  }

  function Decimal(n: nat): (s: string)
    ensures s != "" && AllDigits(s)
    ensures Value(s) == n
  {
    if n < 10 then
      var s := [Digit(n)];
      assert s[..0] == "";
      s
    else
      var front := Decimal(n / 10);
      var s := front + [Digit(n % 10)];
      assert s[..|s| - 1] == front;
      s
  }

  /** `u16::from_str`: an optional plus sign and at least one digit, within range. */
  function ParsePort(s: string): Option<u16> {
    var digits := if |s| > 1 && s[0] == '+' then s[1..] else s;
    if digits != "" && AllDigits(digits) && Value(digits) <= 0xFFFF then Some(Value(digits) as u16) else None
  }

  lemma PortComesBack(p: u16)
    ensures ParsePort(Decimal(p as nat)) == Some(p)
  {
    var s := Decimal(p as nat);
    assert IsDigit(s[0]);
  }

  predicate Zeros(s: string) { forall i | 0 <= i < |s| :: s[i] == '0' }

  /** A digit string is its value in decimal behind zeros. */
  lemma {:induction false} DigitsAreDecimal(s: string) returns (zeros: string)
    requires s != "" && AllDigits(s)
    ensures Zeros(zeros) && s == zeros + Decimal(Value(s))
  {
    var n := |s| - 1;
    var front := s[..n];
    assert s == front + [s[n]];
    if Value(front) == 0 {
      LeadingZeros(front);
      zeros := front;
      assert Value(s) == s[n] as nat - '0' as nat < 10;
    } else {
      zeros := DigitsAreDecimal(front);
      assert Value(s) / 10 == Value(front) && Value(s) % 10 == s[n] as nat - '0' as nat;
      assert Decimal(Value(s)) == Decimal(Value(front)) + [s[n]];
    }
  }

  lemma {:induction false} LeadingZeros(s: string)
    requires AllDigits(s) && Value(s) == 0
    ensures Zeros(s)
  {
    if s != "" {
      LeadingZeros(s[..|s| - 1]);
      assert forall i | 0 <= i < |s| - 1 :: s[i] == s[..|s| - 1][i];
    }
  }

  lemma {:induction false} ZerosAreNothing(zeros: string, s: string)
    requires Zeros(zeros) && AllDigits(s)
    ensures AllDigits(zeros + s) && Value(zeros + s) == Value(s)
    decreases |zeros| + |s|
  {
    var all := zeros + s;
    if s != "" {
      ZerosAreNothing(zeros, s[..|s| - 1]);
      assert all[..|all| - 1] == zeros + s[..|s| - 1] && all[|all| - 1] == s[|s| - 1];
    } else if zeros != "" {
      ZerosAreNothing(zeros[..|zeros| - 1], "");
      assert all[..|all| - 1] == zeros[..|zeros| - 1] + "" && all[|all| - 1] == '0';
    }
  }

  /** `s` is the decimal form of `p`, possibly behind zeros and a plus sign. */
  ghost predicate WritesPort(s: string, p: u16) {
    exists zeros :: Zeros(zeros) && (s == zeros + Decimal(p as nat) || s == "+" + (zeros + Decimal(p as nat)))
  }

  /** A port is accepted exactly in its decimal form, up to leading zeros and one plus sign. */
  lemma PortTexts(s: string, p: u16)
    ensures ParsePort(s) == Some(p) <==> WritesPort(s, p)
  {
    if ParsePort(s) == Some(p) {
      var signed := |s| > 1 && s[0] == '+';
      var digits := if signed then s[1..] else s;
      var zeros := DigitsAreDecimal(digits);
      if signed { assert s == "+" + digits; }
    }
    if WritesPort(s, p) {
      var zeros :| Zeros(zeros) && (s == zeros + Decimal(p as nat) || s == "+" + (zeros + Decimal(p as nat)));
      var digits := zeros + Decimal(p as nat);
      ZerosAreNothing(zeros, Decimal(p as nat));
      assert IsDigit(digits[0]);
      if s != digits { assert s[1..] == digits; }
    }
  }

  // ----- comma-separated lists -----

  function Join(items: seq<string>, c: char): string {
    if items == [] then "" else if |items| == 1 then items[0] else items[0] + [c] + Join(items[1..], c)
  }

  function Split(s: string, c: char): (r: seq<string>)
    ensures r != []
    ensures forall x | x in r :: c !in x
    decreases |s|
  {
    match SplitOnce(s, c)
    case None => [s]
    case Some((a, b)) => [a] + Split(b, c)
  }

  /** Joining and splitting again gives the same list exactly when no item holds the separator. */
  lemma {:induction false} JoinComesBack(items: seq<string>, c: char)
    requires items != []
    ensures Split(Join(items, c), c) == items <==> forall x | x in items :: c !in x
  {
    if forall x | x in items :: c !in x {
      if |items| > 1 {
        JoinComesBack(items[1..], c);
        SplitOnceUndoes(items[0], c, Join(items[1..], c));
        assert items[0] in items;
        assert items == [items[0]] + items[1..];
      } else {
        assert items[0] in items;
        assert items == [items[0]];
      }
    }
  }
}
