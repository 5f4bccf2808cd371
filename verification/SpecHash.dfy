/**
 The text a check result is keyed by: every judged part of a task's spec with
 its length in front. The digest of that text is taken to be collision free.
 */
module SpecHash {
  import opened Tickets

  // The immutable capture a task was refined from.
  datatype Origin = Origin(id: string, title: string, body: string)

  // Exactly what a check reads.
  datatype Spec = Spec(title: string, kind: string, body: string, origin: Option<Origin>)

  function Parts(s: Spec): seq<string> {
    [s.title, s.kind, s.body]
    + (match s.origin case None => [] case Some(o) => [o.id, o.title, o.body])
  }

  function Digit(n: nat): char
    requires n < 10
  {
    ('0' as int + n) as char
  }

  function Decimal(n: nat): string {
    if n < 10 then [Digit(n)] else Decimal(n / 10) + [Digit(n % 10)]
  }

  function Framed(part: string): string {
    Decimal(|part|) + [':'] + part
  }

  function Encode(parts: seq<string>): string {
    if parts == [] then [] else Framed(parts[0]) + Encode(parts[1..])
  }

  function Hash(s: Spec): string {
    Encode(Parts(s))
  }

  lemma {:induction false} DecimalHasNoColon(n: nat)
    ensures ':' !in Decimal(n) && Decimal(n) != []
  {
    if n >= 10 {
      DecimalHasNoColon(n / 10);
    }
  }

  lemma {:induction false} DecimalInjective(m: nat, n: nat)
    requires Decimal(m) == Decimal(n)
    ensures m == n
  {
    DecimalHasNoColon(m / 10);
    DecimalHasNoColon(n / 10);
    var x, y := Decimal(m), Decimal(n);
    assert x[|x| - 1] == y[|y| - 1];
    if m >= 10 && n >= 10 {
      assert Decimal(m / 10) == x[..|x| - 1] == Decimal(n / 10);
      DecimalInjective(m / 10, n / 10);
    }
  }

  lemma NoLaterColon(a: string, b: string, x: string, y: string)
    requires ':' !in b && a + [':'] + x == b + [':'] + y
    ensures |b| <= |a|
  {
    var t := b + [':'] + y;
    assert forall i :: 0 <= i < |b| ==> t[i] == b[i];
    assert t[|a|] == (a + [':'] + x)[|a|] == ':';
  }

  // The first colon ends the length, so a frame can be cut in one way only.
  lemma FirstColon(a: string, b: string, x: string, y: string)
    requires ':' !in a && ':' !in b
    requires a + [':'] + x == b + [':'] + y
    ensures a == b && x == y
  {
    NoLaterColon(a, b, x, y);
    NoLaterColon(b, a, y, x);
    var s, t := a + [':'] + x, b + [':'] + y;
    assert a == s[..|a|] && b == t[..|b|];
    assert x == s[|a| + 1..] && y == t[|b| + 1..];
  }

  lemma {:induction false} EncodeInjective(p: seq<string>, q: seq<string>)
    requires Encode(p) == Encode(q)
    ensures p == q
  {
    if p != [] && q != [] {
      var a, b := p[0], q[0];
      DecimalHasNoColon(|a|);
      DecimalHasNoColon(|b|);
      assert Encode(p) == Decimal(|a|) + [':'] + (a + Encode(p[1..]));
      assert Encode(q) == Decimal(|b|) + [':'] + (b + Encode(q[1..]));
      FirstColon(Decimal(|a|), Decimal(|b|), a + Encode(p[1..]), b + Encode(q[1..]));
      DecimalInjective(|a|, |b|);
      var rest := a + Encode(p[1..]);
      assert a == rest[..|a|] && b == rest[..|b|];
      assert Encode(p[1..]) == rest[|a|..] && Encode(q[1..]) == rest[|b|..];
      EncodeInjective(p[1..], q[1..]);
      assert p == [a] + p[1..] && q == [b] + q[1..];
    }
  }

  // The hash changes exactly when the judged content does.
  lemma HashIsContent(s: Spec, t: Spec)
    ensures Hash(s) == Hash(t) <==> s == t
  {
    if Hash(s) == Hash(t) {
      EncodeInjective(Parts(s), Parts(t));
      var p, q := Parts(s), Parts(t);
      assert |p| == |q|;
      assert p[0] == q[0] && p[1] == q[1] && p[2] == q[2];
      if s.origin.Some? {
        assert p[3] == q[3] && p[4] == q[4] && p[5] == q[5];
      }
    }
  }
}
