/** The byte-wise order of strings, and sorting by it. */
module Ordering {

  predicate Before(a: string, b: string) {
    if a == [] then b != []
    else if b == [] then false
    else a[0] < b[0] || (a[0] == b[0] && Before(a[1..], b[1..]))
  }

  lemma {:induction false} Irreflexive(a: string)
    ensures !Before(a, a)
  {
    if a != [] { Irreflexive(a[1..]); }
  }

  lemma {:induction false} Transitive(a: string, b: string, c: string)
    requires Before(a, b) && Before(b, c)
    ensures Before(a, c)
  {
    if a != [] && b != [] && c != [] && a[0] == b[0] == c[0] {
      Transitive(a[1..], b[1..], c[1..]);
    }
  }

  lemma {:induction false} Total(a: string, b: string)
    ensures Before(a, b) || a == b || Before(b, a)
  {
    if a != [] && b != [] && a[0] == b[0] {
      Total(a[1..], b[1..]);
      assert a == [a[0]] + a[1..] && b == [b[0]] + b[1..];
    }
  }

  /** Strictly ascending, hence without duplicates. */
  ghost predicate Ascending(s: seq<string>) {
    forall i, j | 0 <= i < j < |s| :: Before(s[i], s[j])
  }

  /** Where `x` belongs in an ascending sequence that does not contain it. */
  function Rank(s: seq<string>, x: string): (k: nat)
    ensures k <= |s|
  {
    if s == [] || !Before(s[0], x) then 0 else 1 + Rank(s[1..], x)
  }

  lemma {:induction false} RankSplits(s: seq<string>, x: string)
    requires Ascending(s) && x !in s
    ensures forall i | 0 <= i < Rank(s, x) :: Before(s[i], x)
    ensures forall i | Rank(s, x) <= i < |s| :: Before(x, s[i])
  {
    if s == [] {
    } else if Before(s[0], x) {
      RankSplits(s[1..], x);
      forall i | Rank(s, x) <= i < |s| ensures Before(x, s[i]) { assert s[i] == s[1..][i - 1]; }
    } else {
      Total(s[0], x);
      forall i | 0 < i < |s| ensures Before(x, s[i]) { Transitive(x, s[0], s[i]); }
    }
  }

  function Inserted(s: seq<string>, x: string): seq<string> {
    s[..Rank(s, x)] + [x] + s[Rank(s, x)..]
  }

  lemma InsertedAscends(s: seq<string>, x: string)
    requires Ascending(s) && x !in s
    ensures Ascending(Inserted(s, x)) && (forall y :: y in Inserted(s, x) <==> y == x || y in s)
  {
    RankSplits(s, x);
    var k, r := Rank(s, x), Inserted(s, x);
    assert forall i | 0 <= i < k :: r[i] == s[i];
    assert forall i | k < i < |r| :: r[i] == s[i - 1];
    forall y | y in s ensures y in r {
      var i :| 0 <= i < |s| && s[i] == y;
      assert r[if i < k then i else i + 1] == y;
    }
  }
}
