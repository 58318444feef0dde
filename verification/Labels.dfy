/** Numbered names such as "L2" or "L2-D1-target_drift", and why they identify what they name. */
module Labels {

  function Digit(d: nat): char
    requires d < 10
  {
    '0' + d as char
  }

  function Decimal(n: nat): (s: string)
    ensures s != [] && (|s| == 1 <==> n < 10)
    ensures forall k :: 0 <= k < |s| ==> '0' <= s[k] <= '9'
  {
    if n < 10 then [Digit(n)] else Decimal(n / 10) + [Digit(n % 10)]
  }

  lemma {:induction false} DecimalIdentifies(m: nat, n: nat)
    requires Decimal(m) == Decimal(n)
    ensures m == n
  {
    if m >= 10 && n >= 10 {
      SameEnding(Decimal(m / 10), Decimal(n / 10), Digit(m % 10), Digit(n % 10));
      DecimalIdentifies(m / 10, n / 10);
    } else {
      assert |Decimal(m)| == 1 && |Decimal(n)| == 1;
      assert Decimal(m)[0] == Digit(m) && Decimal(n)[0] == Digit(n);
    }
  }

  lemma SameEnding(x: string, y: string, a: char, b: char)
    requires x + [a] == y + [b]
    ensures x == y && a == b
  {
    assert x == (x + [a])[..|x + [a]| - 1];
    assert y == (y + [b])[..|y + [b]| - 1];
    assert a == (x + [a])[|x|];
  }

  /** Joining names can be read from either end. */
  lemma Joined(x: string, y: string, z: string)
    ensures x + y + z == x + (y + z)
  {
  }

  /** A number followed by a dash can be read back from the front of a name. */
  lemma NumberThenDash(m: nat, n: nat, x: string, y: string)
    requires Decimal(m) + ("-" + x) == Decimal(n) + ("-" + y)
    ensures m == n && x == y
  {
    var a, b := Decimal(m), Decimal(n);
    var whole := a + ("-" + x);
    assert whole[|a|] == '-' && whole[|b|] == '-';
    assert forall k :: 0 <= k < |a| ==> whole[k] == a[k] != '-';
    assert forall k :: 0 <= k < |b| ==> whole[k] == b[k] != '-';
    assert a == whole[..|a|] && b == whole[..|b|];
    DecimalIdentifies(m, n);
    CutPrefix(a, "-" + x, "-" + y);
    CutPrefix("-", x, y);
  }

  lemma CutPrefix(prefix: string, x: string, y: string)
    requires prefix + x == prefix + y
    ensures x == y
  {
    assert x == (prefix + x)[|prefix|..];
    assert y == (prefix + y)[|prefix|..];
  }

  function LevelId(n: nat): string { "L" + Decimal(n) }

  lemma LevelIdIdentifies(m: nat, n: nat)
    requires LevelId(m) == LevelId(n)
    ensures m == n
  {
    CutPrefix("L", Decimal(m), Decimal(n));
    DecimalIdentifies(m, n);
  }

  function TrialId(run: string, level: string, attempt: nat): string {
    run + ("-" + (level + ("-" + ("a" + Decimal(attempt)))))
  }

  lemma TrialIdIdentifies(run: string, m: nat, n: nat, a: nat, b: nat)
    requires TrialId(run, LevelId(m), a) == TrialId(run, LevelId(n), b)
    ensures m == n && a == b
  {
    var x, y := "a" + Decimal(a), "a" + Decimal(b);
    CutPrefix(run, "-" + (LevelId(m) + ("-" + x)), "-" + (LevelId(n) + ("-" + y)));
    CutPrefix("-", LevelId(m) + ("-" + x), LevelId(n) + ("-" + y));
    Joined("L", Decimal(m), "-" + x);
    Joined("L", Decimal(n), "-" + y);
    CutPrefix("L", Decimal(m) + ("-" + x), Decimal(n) + ("-" + y));
    NumberThenDash(m, n, x, y);
    CutPrefix("a", Decimal(a), Decimal(b));
    DecimalIdentifies(a, b);
  }
}
