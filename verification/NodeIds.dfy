/** Node and edge identifiers of the causal graph are strings; everything keyed by them rests on
    their being injective. */
module NodeIds {
  import opened Decimal

  function ProcId(pid: nat): string { "proc:" + Digits(pid) }

  function FileId(path: string): string { "file:" + path }

  function SockId(addr: string, port: nat): string { "sock:" + addr + ":" + Digits(port) }

  function EdgeId(n: nat): string { "e" + Digits(n) }

  lemma {:induction false} ProcIdInjective(p: nat, q: nat)
    requires ProcId(p) == ProcId(q)
    ensures p == q
  {
    assert ProcId(p)[5..] == Digits(p) && ProcId(q)[5..] == Digits(q);
    DigitsInjective(p, q);
  }

  lemma {:induction false} EdgeIdInjective(m: nat, n: nat)
    requires EdgeId(m) == EdgeId(n)
    ensures m == n
  {
    assert EdgeId(m)[1..] == Digits(m) && EdgeId(n)[1..] == Digits(n);
    DigitsInjective(m, n);
  }

  lemma FileIdInjective(p: string, q: string)
    requires FileId(p) == FileId(q)
    ensures p == q
  {
    assert FileId(p)[5..] == p && FileId(q)[5..] == q;
  }

  /** A numeral holds no colon, so a shorter address never yields the same text as a longer one. */
  lemma LastColonDecides(a: string, x: string, b: string, y: string)
    requires IsNumeral(x) && |a| < |b|
    ensures a + ":" + x != b + ":" + y
  {
    var l, r := a + ":" + x, b + ":" + y;
    if |l| == |r| {
      assert r[|b|] == ':';
      assert l[|b|] == x[|b| - |a| - 1];
    }
  }

  lemma ColonSplits(a: string, x: string, b: string, y: string)
    requires |a| == |b| && a + ":" + x == b + ":" + y
    ensures a == b && x == y
  {
    var s := a + ":" + x;
    assert s[..|a|] == a && s[|a| + 1..] == x;
    assert s[..|b|] == b && s[|b| + 1..] == y;
  }

  /** The port follows the last colon, so addresses that contain colons themselves stay apart. */
  lemma {:induction false} SockIdInjective(a: string, p: nat, b: string, q: nat)
    requires SockId(a, p) == SockId(b, q)
    ensures a == b && p == q
  {
    var x, y := Digits(p), Digits(q);
    assert SockId(a, p)[5..] == a + ":" + x && SockId(b, q)[5..] == b + ":" + y;
    if |a| < |b| {
      LastColonDecides(a, x, b, y);
    } else if |b| < |a| {
      LastColonDecides(b, y, a, x);
    } else {
      ColonSplits(a, x, b, y);
      DigitsInjective(p, q);
    }
  }

  /** The three prefixes keep the three kinds of node apart. */
  lemma PrefixesDisjoint(p: nat, path: string, a: string, q: nat)
    ensures ProcId(p) != FileId(path) && ProcId(p) != SockId(a, q) && FileId(path) != SockId(a, q)
  {
    assert ProcId(p)[0] == 'p' && FileId(path)[0] == 'f' && SockId(a, q)[0] == 's';
  }
}
