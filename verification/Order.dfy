/** The orders Python uses for sorting and for `max`: text by code point, and tuples lexicographically. */
module Order {

  predicate Before(a: string, b: string) {
    if b == [] then false
    else if a == [] then true
    else a[0] < b[0] || (a[0] == b[0] && Before(a[1..], b[1..]))
  }

  lemma {:induction false} BeforeTransitive(a: string, b: string, c: string)
    requires Before(a, b) && Before(b, c)
    ensures Before(a, c)
  {
    if a != [] && a[0] == b[0] && b[0] == c[0] { BeforeTransitive(a[1..], b[1..], c[1..]); }
  }

  lemma {:induction false} BeforeTotal(a: string, b: string)
    ensures a == b || Before(a, b) || Before(b, a)
    ensures Before(a, b) ==> a != b && !Before(b, a)
  {
    if a != [] && b != [] && a[0] == b[0] {
      BeforeTotal(a[1..], b[1..]);
      assert a == [a[0]] + a[1..] && b == [b[0]] + b[1..];
    }
  }

  /** The first place where two lists differ, or the end of the shorter one. */
  ghost predicate Diverge<T>(a: seq<T>, b: seq<T>, k: nat) {
    k <= |a| && k <= |b| && a[..k] == b[..k] && (k < |a| && k < |b| ==> a[k] != b[k])
  }

  /** Text comes before text when it is a proper prefix, or has the smaller character where they first differ. */
  lemma {:induction false} BeforeExactly(a: string, b: string, k: nat)
    requires Diverge(a, b, k)
    ensures Before(a, b) <==> k < |b| && (k == |a| || a[k] < b[k])
    decreases |a|
  {
    if k > 0 {
      assert a[0] == a[..k][0] == b[..k][0] == b[0];
      assert a[1..][..k - 1] == a[..k][1..] == b[..k][1..] == b[1..][..k - 1];
      BeforeExactly(a[1..], b[1..], k - 1);
    }
  }

  /** The order of tuples of text. */
  predicate PathBefore(a: seq<string>, b: seq<string>) {
    if b == [] then false
    else if a == [] then true
    else Before(a[0], b[0]) || (a[0] == b[0] && PathBefore(a[1..], b[1..]))
  }

  lemma {:induction false} PathBeforeExactly(a: seq<string>, b: seq<string>, k: nat)
    requires Diverge(a, b, k)
    ensures PathBefore(a, b) <==> k < |b| && (k == |a| || Before(a[k], b[k]))
    decreases |a|
  {
    if k > 0 {
      assert a[0] == a[..k][0] == b[..k][0] == b[0];
      BeforeTotal(a[0], b[0]);
      assert a[1..][..k - 1] == a[..k][1..] == b[..k][1..] == b[1..][..k - 1];
      PathBeforeExactly(a[1..], b[1..], k - 1);
    }
  }

  lemma {:induction false} PathTransitive(a: seq<string>, b: seq<string>, c: seq<string>)
    requires PathBefore(a, b) && PathBefore(b, c)
    ensures PathBefore(a, c)
  {
    if a != [] {
      BeforeTotal(a[0], a[0]);
      if Before(a[0], b[0]) && Before(b[0], c[0]) { BeforeTransitive(a[0], b[0], c[0]); }
      if a[0] == b[0] && b[0] == c[0] { PathTransitive(a[1..], b[1..], c[1..]); }
    }
  }

  lemma {:induction false} PathIrreflexive(a: seq<string>)
    ensures !PathBefore(a, a)
  {
    if a != [] {
      BeforeTotal(a[0], a[0]);
      PathIrreflexive(a[1..]);
    }
  }

  /** A number, with text to break ties. */
  datatype Rank = Rank(score: real, id: string)

  predicate Below(a: Rank, b: Rank) {
    a.score < b.score || (a.score == b.score && Before(a.id, b.id))
  }

  lemma BelowTransitive(a: Rank, b: Rank, c: Rank)
    requires Below(a, b) && Below(b, c)
    ensures Below(a, c)
  {
    if Before(a.id, b.id) && Before(b.id, c.id) { BeforeTransitive(a.id, b.id, c.id); }
  }

  lemma BelowTotal(a: Rank, b: Rank)
    ensures a == b || Below(a, b) || Below(b, a)
    ensures Below(a, b) ==> a != b && !Below(b, a)
  {
    BeforeTotal(a.id, b.id);
  }

  /** No element of the list is above the one at `k`, and none before it equals it. */
  ghost predicate FirstGreatest(ranks: seq<Rank>, k: nat) {
    && k < |ranks|
    && (forall j :: 0 <= j < |ranks| ==> !Below(ranks[k], ranks[j]))
    && (forall j :: 0 <= j < k ==> ranks[j] != ranks[k])
  }

  lemma Replaces(ranks: seq<Rank>, k: nat, n: nat)
    requires n < |ranks| && FirstGreatest(ranks[..n], k)
    ensures FirstGreatest(ranks[..n + 1], if Below(ranks[k], ranks[n]) then n else k)
  {
    var all := ranks[..n + 1];
    assert forall j :: 0 <= j < n ==> ranks[..n][j] == all[j];
    if Below(ranks[k], ranks[n]) {
      forall j | 0 <= j <= n ensures !Below(all[n], all[j]) {
        BelowTotal(all[n], all[j]);
        if j < n && Below(all[n], all[j]) { BelowTransitive(all[k], all[n], all[j]); }
      }
    }
  }

  /** What `max` returns: the first greatest element. */
  function Top(ranks: seq<Rank>): (k: nat)
    requires ranks != []
    ensures FirstGreatest(ranks, k)
  {
    var n := |ranks| - 1;
    BelowTotal(ranks[0], ranks[0]);
    if n == 0 then 0
    else
      var k := Top(ranks[..n]);
      Replaces(ranks, k, n);
      assert ranks[..n + 1] == ranks;
      if Below(ranks[k], ranks[n]) then n else k
  }

  lemma FirstGreatestIsTop(ranks: seq<Rank>, k: nat)
    requires FirstGreatest(ranks, k)
    ensures k == Top(ranks)
  {
    BelowTotal(ranks[k], ranks[Top(ranks)]);
  }

  /** `max` over a list, as a scan. */
  method Greatest(ranks: seq<Rank>) returns (k: nat)
    requires ranks != []
    ensures k == Top(ranks)
  {
    k := 0;
    BelowTotal(ranks[0], ranks[0]);
    for i := 1 to |ranks|
      invariant FirstGreatest(ranks[..i], k)
    {
      Replaces(ranks, k, i);
      if Below(ranks[k], ranks[i]) { k := i; }
    }
    assert ranks[..|ranks|] == ranks;
    FirstGreatestIsTop(ranks, k);
  }
}
