/** Decimal text and fields joined by colons, and why neither loses anything. */
module Texts {
  function Digit(d: nat): char
    requires d < 10
  {
    "0123456789"[d]
  }

  function Decimal(n: nat): string {
    if n < 10 then [Digit(n)] else Decimal(n / 10) + [Digit(n % 10)]
  }

  function DecimalOf(i: int): string {
    if i < 0 then "-" + Decimal(-i) else Decimal(i)
  }

  predicate Plain(text: string) {
    ':' !in text
  }

  function Join(parts: seq<string>): string {
    if parts == [] then "" else if |parts| == 1 then parts[0] else parts[0] + ":" + Join(parts[1..])
  }

  lemma {:induction false} DecimalIsDigits(n: nat)
    ensures Decimal(n) != [] && forall k :: 0 <= k < |Decimal(n)| ==> '0' <= Decimal(n)[k] <= '9'
  {
    if n >= 10 {
      DecimalIsDigits(n / 10);
    }
  }

  lemma DecimalIsPlain(i: int)
    ensures Plain(DecimalOf(i)) && DecimalOf(i) != [] && DecimalOf(i)[0] != 'n'
  {
    DecimalIsDigits(if i < 0 then -i else i);
  }

  lemma {:induction false} DecimalInjective(m: nat, n: nat)
    requires Decimal(m) == Decimal(n)
    ensures m == n
  {
    var s, t := Decimal(m), Decimal(n);
    assert s[|s| - 1] == Digit(m % 10) && t[|t| - 1] == Digit(n % 10);
    assert m % 10 == n % 10;
    DecimalIsDigits(m / 10);
    DecimalIsDigits(n / 10);
    if m >= 10 && n >= 10 {
      assert Decimal(m / 10) == s[..|s| - 1] == t[..|t| - 1] == Decimal(n / 10);
      DecimalInjective(m / 10, n / 10);
    }
  }

  lemma SignShows(i: int)
    ensures DecimalOf(i) != [] && (DecimalOf(i)[0] == '-' <==> i < 0)
    ensures i < 0 ==> DecimalOf(i)[1..] == Decimal(-i)
  {
    DecimalIsDigits(if i < 0 then -i else i);
  }

  lemma DecimalOfInjective(i: int, j: int)
    requires DecimalOf(i) == DecimalOf(j)
    ensures i == j
  {
    SignShows(i);
    SignShows(j);
    if i < 0 {
      DecimalInjective(-i, -j);
    } else {
      DecimalInjective(i, j);
    }
  }

  lemma FirstPartFound(p: string, r: string, q: string, t: string)
    requires Plain(p) && Plain(q) && p + ":" + r == q + ":" + t
    ensures p == q && r == t
  {
    var whole := p + ":" + r;
    assert whole[|p|] == ':' && whole[|q|] == ':';
    assert forall k :: 0 <= k < |p| ==> whole[k] == p[k] && p[k] in p;
    assert forall k :: 0 <= k < |q| ==> whole[k] == q[k] && q[k] in q;
    assert |p| == |q|;
    assert whole[..|p|] == p && whole[..|q|] == q;
    assert whole[|p| + 1..] == r && whole[|q| + 1..] == t;
  }

  lemma ColonMeansMore(parts: seq<string>)
    requires parts != [] && Plain(parts[0])
    ensures Plain(Join(parts)) <==> |parts| == 1
  {
    if |parts| > 1 {
      assert Join(parts)[|parts[0]|] == ':';
    }
  }

  /** Joined text gives its parts back, as long as no part holds a colon. */
  lemma {:induction false} JoinInjective(a: seq<string>, b: seq<string>)
    requires a != [] && b != [] && Join(a) == Join(b)
    requires (forall k :: 0 <= k < |a| ==> Plain(a[k])) && (forall k :: 0 <= k < |b| ==> Plain(b[k]))
    ensures a == b
    decreases |a|
  {
    ColonMeansMore(a);
    ColonMeansMore(b);
    if |a| > 1 {
      FirstPartFound(a[0], Join(a[1..]), b[0], Join(b[1..]));
      JoinInjective(a[1..], b[1..]);
      assert a == [a[0]] + a[1..] && b == [b[0]] + b[1..];
    }
  }
}
