/** The decimal rendering that fmt's %d verb produces for non-negative integers. */
module Decimal {

  function Digit(d: nat): char
    requires d < 10
  {
    '0' + d as char
  }

  function Render(n: nat): (s: string)
    ensures |s| > 0
  {
    if n < 10 then [Digit(n)] else Render(n / 10) + [Digit(n % 10)]
  }

  predicate Digits(s: string) {
    forall i :: 0 <= i < |s| ==> '0' <= s[i] <= '9'
  }

  function Read(s: string): nat
    requires Digits(s)
  {
    if s == "" then 0 else Read(s[..|s| - 1]) * 10 + (s[|s| - 1] - '0') as nat
  }

  // Digits without a leading zero, which read as the number.
  lemma {:induction false} ReadsBack(n: nat)
    ensures Digits(Render(n)) && Read(Render(n)) == n
    ensures Render(n)[0] == '0' <==> n == 0
  {
    if n >= 10 {
      var s := Render(n);
      ReadsBack(n / 10);
      assert s[..|s| - 1] == Render(n / 10);
    }
  }

  // And such digits are the rendering of what they read as.
  lemma {:induction false} RendersBack(s: string)
    requires s != "" && Digits(s) && (|s| > 1 ==> s[0] != '0')
    ensures Render(Read(s)) == s && (s[0] != '0' ==> Read(s) > 0)
    decreases |s|
  {
    var rest, last := s[..|s| - 1], s[|s| - 1];
    var d := (last - '0') as nat;
    if |s| == 1 {
      assert rest == "" && s == [last] && Read(s) == d;
    } else {
      RendersBack(rest);
      assert s == rest + [last] && Read(s) == Read(rest) * 10 + d;
    }
  }

  // Distinct numbers have distinct renderings.
  lemma {:induction false} RenderInjective(m: nat, n: nat)
    requires Render(m) == Render(n)
    ensures m == n
  {
    ReadsBack(m);
    ReadsBack(n);
  }
}
