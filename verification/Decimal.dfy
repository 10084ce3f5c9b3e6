/** strconv.FormatInt and strconv.ParseInt with base 10 and 64 bits. */
module Decimal {
  import opened Domain

  const INT64_MIN := -0x8000_0000_0000_0000
  const INT64_MAX := 0x7fff_ffff_ffff_ffff

  function Digit(d: nat): char
    requires d < 10
  {
    '0' + d as char
  }

  predicate IsDigit(c: char) {
    '0' <= c <= '9'
  }

  function Digits(n: nat): (s: string)
    ensures s != [] && forall i :: 0 <= i < |s| ==> IsDigit(s[i])
  {
    if n < 10 then [Digit(n)] else Digits(n / 10) + [Digit(n % 10)]
  }

  function FormatInt(id: int): string {
    if id < 0 then ['-'] + Digits(-id) else Digits(id)
  }

  function ParseNat(s: string): Option<nat> {
    if s == [] then None
    else
      var c := s[|s| - 1];
      if !IsDigit(c) then None
      else
        var d := (c - '0') as nat;
        if |s| == 1 then Some(d)
        else
          match ParseNat(s[..|s| - 1])
          case None => None
          case Some(n) => Some(10 * n + d)
  }

  function ParseInt(s: string): Option<int> {
    var signed := s != [] && (s[0] == '-' || s[0] == '+');
    match ParseNat(if signed then s[1..] else s)
    case None => None
    case Some(n) =>
      var id: int := if signed && s[0] == '-' then -(n as int) else n;
      if INT64_MIN <= id <= INT64_MAX then Some(id) else None
  }

  lemma {:induction false} ParseDigits(n: nat)
    ensures ParseNat(Digits(n)) == Some(n)
  {
    if n >= 10 {
      ParseDigits(n / 10);
      assert Digits(n)[..|Digits(n)| - 1] == Digits(n / 10);
    }
  }

  /** A member reads back as the id it was made from, so different ids have different members. */
  lemma ParseFormat(id: int)
    requires INT64_MIN <= id <= INT64_MAX
    ensures ParseInt(FormatInt(id)) == Some(id)
  {
    ParseDigits(if id < 0 then -id else id);
    if id < 0 {
      assert FormatInt(id)[1..] == Digits(-id);
    }
  }

  lemma DigitsInjective(a: nat, b: nat)
    requires Digits(a) == Digits(b)
    ensures a == b
  {
    ParseDigits(a);
    ParseDigits(b);
  }

  predicate AllDigits(s: string) {
    s != [] && forall i :: 0 <= i < |s| ==> '0' <= s[i] <= '9'
  }

  lemma {:induction false} DigitsShape(n: nat)
    ensures AllDigits(Digits(n)) && (Digits(n)[0] == '0' ==> n == 0 && |Digits(n)| == 1)
  {
    if n >= 10 {
      DigitsShape(n / 10);
    }
  }

  /** A member has a minus sign exactly if its id is negative, no plus sign, and no leading zero. */
  lemma FormatShape(id: int)
    ensures var s := FormatInt(id);
            && (id < 0 ==> s[0] == '-' && AllDigits(s[1..]) && s[1] != '0')
            && (id >= 0 ==> AllDigits(s) && (s[0] == '0' ==> id == 0 && |s| == 1))
  {
    DigitsShape(if id < 0 then -id else id);
    if id < 0 {
      assert FormatInt(id)[1..] == Digits(-id);
    }
  }

  lemma {:induction false} ParseNatShape(s: string)
    ensures ParseNat(s).Some? <==> AllDigits(s)
  {
    if s != [] {
      var front := s[..|s| - 1];
      ParseNatShape(front);
      if |s| > 1 {
        assert AllDigits(s) <==> AllDigits(front) && '0' <= s[|s| - 1] <= '9' by {
          assert s == front + [s[|s| - 1]];
        }
      }
    }
  }

  /** Only digits after at most one sign are a number, if it is in range; anything else is not. */
  lemma ParseShape(s: string)
    ensures ParseInt(s).Some? ==> AllDigits(s) || (s != [] && (s[0] == '-' || s[0] == '+') && AllDigits(s[1..]))
    ensures AllDigits(s) ==> ParseNat(s).Some? && (ParseInt(s).Some? <==> ParseNat(s).value <= INT64_MAX)
  {
    var signed := s != [] && (s[0] == '-' || s[0] == '+');
    ParseNatShape(if signed then s[1..] else s);
  }
}
