/** Order-preserving selections, sums and folds over sequences, with the laws the other modules share. */
module Seqs {

  datatype Option<+T> = None | Some(value: T)

  /** The elements of s that satisfy p, in their order in s. */
  function Filter<T>(p: T -> bool, s: seq<T>): (r: seq<T>)
  {
    if s == [] then []
    else
      var e := s[|s| - 1];
      Filter(p, s[..|s| - 1]) + (if p(e) then [e] else [])
  }

  lemma {:induction false} FilterAppend<T>(p: T -> bool, a: seq<T>, b: seq<T>)
    ensures Filter(p, a + b) == Filter(p, a) + Filter(p, b)
  {
    if b == [] {
      assert a + b == a;
    } else {
      var n := |b| - 1;
      assert (a + b)[..|a + b| - 1] == a + b[..n];
      FilterAppend(p, a, b[..n]);
    }
  }

  lemma FilterCons<T>(p: T -> bool, x: T, rest: seq<T>)
    ensures Filter(p, [x] + rest) == (if p(x) then [x] else []) + Filter(p, rest)
  {
    FilterAppend(p, [x], rest);
    assert [x][..0] == [];
  }

  lemma {:induction false} FilterPush<T>(p: T -> bool, s: seq<T>, e: T)
    ensures Filter(p, s + [e]) == Filter(p, s) + (if p(e) then [e] else [])
  {
    assert (s + [e])[..|s|] == s;
  }

  /** Selecting from a prefix gives a prefix of the selection; from one element more, that element if it is wanted. */
  lemma {:induction false} FilterPrefix<T>(p: T -> bool, s: seq<T>, k: nat)
    requires k <= |s|
    ensures Filter(p, s[..k]) <= Filter(p, s)
    ensures k < |s| ==> Filter(p, s[..k + 1]) == Filter(p, s[..k]) + (if p(s[k]) then [s[k]] else [])
  {
    FilterAppend(p, s[..k], s[k..]);
    assert s[..k] + s[k..] == s;
    if k < |s| {
      assert s[..k + 1][..k] == s[..k];
    }
  }

  /** A wanted element at or after k is missing from the selection of the first k. */
  lemma {:induction false} FilterMisses<T>(p: T -> bool, s: seq<T>, k: nat, j: nat)
    requires k <= j < |s| && p(s[j])
    ensures |Filter(p, s[..k])| < |Filter(p, s)|
  {
    FilterPrefix(p, s[..j], k);
    assert s[..j][..k] == s[..k];
    FilterPrefix(p, s, j);
    FilterPrefix(p, s, j + 1);
  }

  lemma {:induction false} FilterMember<T>(p: T -> bool, s: seq<T>, e: T)
    ensures e in Filter(p, s) <==> e in s && p(e)
  {
    if s != [] {
      FilterMember(p, s[..|s| - 1], e);
      assert s == s[..|s| - 1] + [s[|s| - 1]];
    }
  }

  lemma {:induction false} FilterNone<T>(p: T -> bool, s: seq<T>)
    requires forall e :: e in s ==> !p(e)
    ensures Filter(p, s) == []
  {
    if s != [] {
      FilterNone(p, s[..|s| - 1]);
    }
  }

  lemma {:induction false} FilterSame<T>(p: T -> bool, q: T -> bool, s: seq<T>)
    requires forall e :: e in s ==> p(e) == q(e)
    ensures Filter(p, s) == Filter(q, s)
  {
    if s != [] {
      FilterSame(p, q, s[..|s| - 1]);
    }
  }

  /** The sum of f over s. */
  function Sum<T>(f: T -> int, s: seq<T>): int
  {
    if s == [] then 0 else Sum(f, s[..|s| - 1]) + f(s[|s| - 1])
  }

  lemma {:induction false} SumAppend<T>(f: T -> int, a: seq<T>, b: seq<T>)
    ensures Sum(f, a + b) == Sum(f, a) + Sum(f, b)
  {
    if b == [] {
      assert a + b == a;
    } else {
      assert (a + b)[..|a + b| - 1] == a + b[..|b| - 1];
      SumAppend(f, a, b[..|b| - 1]);
    }
  }

  lemma {:induction false} SumPush<T>(f: T -> int, s: seq<T>, e: T)
    ensures Sum(f, s + [e]) == Sum(f, s) + f(e)
  {
    assert (s + [e])[..|s|] == s;
  }

  lemma SumOne<T>(f: T -> int, e: T)
    ensures Sum(f, [e]) == f(e)
  {
    assert [e][..0] == [];
  }

  lemma SumTwo<T>(f: T -> int, a: T, b: T)
    ensures Sum(f, [a] + [b]) == f(a) + f(b)
  {
    SumOne(f, a);
    SumPush(f, [a], b);
  }

  /** Replacing one element changes the sum by the difference of the two values. */
  lemma {:induction false} SumUpdate<T>(f: T -> int, s: seq<T>, i: nat, e: T)
    requires i < |s|
    ensures Sum(f, s[i := e]) == Sum(f, s) - f(s[i]) + f(e)
  {
    var n := |s| - 1;
    if i == n {
      assert s[i := e][..n] == s[..n];
    } else {
      SumUpdate(f, s[..n], i, e);
      assert s[i := e][..n] == s[..n][i := e];
    }
  }

  lemma {:induction false} SumNonNegative<T>(f: T -> int, s: seq<T>)
    requires forall i :: 0 <= i < |s| ==> f(s[i]) >= 0
    ensures Sum(f, s) >= 0
  {
    if s != [] {
      SumNonNegative(f, s[..|s| - 1]);
    }
  }

  /** Sequences whose values agree one by one have the same sum. */
  lemma {:induction false} SumMatch<S, T>(f: S -> int, a: seq<S>, g: T -> int, b: seq<T>)
    requires |a| == |b| && forall i :: 0 <= i < |a| ==> f(a[i]) == g(b[i])
    ensures Sum(f, a) == Sum(g, b)
  {
    if a != [] {
      SumMatch(f, a[..|a| - 1], g, b[..|b| - 1]);
    }
  }

  lemma {:induction false} SumPlus<T>(f: T -> int, g: T -> int, total: T -> int, s: seq<T>)
    requires forall i :: 0 <= i < |s| ==> total(s[i]) == f(s[i]) + g(s[i])
    ensures Sum(total, s) == Sum(f, s) + Sum(g, s)
  {
    if s != [] {
      SumPlus(f, g, total, s[..|s| - 1]);
    }
  }

  /** A sum to which only one element contributes. */
  lemma {:induction false} SumSingle<T>(f: T -> int, s: seq<T>, h: nat)
    requires h < |s| && forall i :: 0 <= i < |s| && i != h ==> f(s[i]) == 0
    ensures Sum(f, s) == f(s[h])
  {
    assert s == s[..h] + [s[h]] + s[h + 1..];
    SumAppend(f, s[..h] + [s[h]], s[h + 1..]);
    SumAppend(f, s[..h], [s[h]]);
    SumVanishes(f, s[..h]);
    SumVanishes(f, s[h + 1..]);
    assert [s[h]][..0] == [];
  }

  lemma {:induction false} SumVanishes<T>(f: T -> int, s: seq<T>)
    requires forall e :: e in s ==> f(e) == 0
    ensures Sum(f, s) == 0
  {
    if s != [] {
      SumVanishes(f, s[..|s| - 1]);
    }
  }

  /** A sum does not depend on the order of the elements. */
  lemma {:induction false} SumPermuted<T>(f: T -> int, a: seq<T>, b: seq<T>)
    requires multiset(a) == multiset(b)
    ensures Sum(f, a) == Sum(f, b)
  {
    if a == [] {
      assert |b| == |multiset(b)| == 0;
    } else {
      var n := |a| - 1;
      TakeOut(f, a, n);
      assert a[..n] + a[n + 1..] == a[..n];
      assert a[n] in multiset(a);
      var i :| 0 <= i < |b| && b[i] == a[n];
      TakeOut(f, b, i);
      hide Sum;
      SumPermuted(f, a[..n], b[..i] + b[i + 1..]);
    }
  }

  lemma {:induction false} TakeOut<T>(f: T -> int, s: seq<T>, i: nat)
    requires i < |s|
    ensures multiset(s[..i] + s[i + 1..]) == multiset(s) - multiset{s[i]}
    ensures Sum(f, s) == Sum(f, s[..i] + s[i + 1..]) + f(s[i])
  {
    var before, e, after := s[..i], s[i], s[i + 1..];
    assert s == before + [e] + after;
    SumAppend(f, before, after);
    SumAppend(f, before + [e], after);
    SumAppend(f, before, [e]);
    assert [e][..0] == [];
  }

  /** Counting is summing ones. */
  function Indicator<T>(p: T -> bool): T -> int { (e: T) => if p(e) then 1 else 0 }

  lemma {:induction false} SumCounts<T>(p: T -> bool, s: seq<T>)
    ensures Sum(Indicator(p), s) == |Filter(p, s)|
  {
    if s != [] {
      SumCounts(p, s[..|s| - 1]);
    }
  }

  /** Elements that contribute nothing may be left out. */
  lemma {:induction false} SumFiltered<T>(f: T -> int, p: T -> bool, s: seq<T>)
    requires forall i :: 0 <= i < |s| && !p(s[i]) ==> f(s[i]) == 0
    ensures Sum(f, Filter(p, s)) == Sum(f, s)
  {
    if s != [] {
      var init, e := s[..|s| - 1], s[|s| - 1];
      SumFiltered(f, p, init);
      SumAppend(f, Filter(p, init), if p(e) then [e] else []);
      assert [e][..0] == [];
      assert Filter(p, init) + [] == Filter(p, init);
    }
  }

  // ---------- Shares ----------

  /** Exactly one of the selections takes e. */
  ghost predicate TakenOnce<T>(picks: seq<T -> bool>, e: T)
  {
    exists h :: 0 <= h < |picks| && picks[h](e) && forall g :: 0 <= g < |picks| && g != h ==> !picks[g](e)
  }

  function Share<T>(f: T -> int, s: seq<T>): (T -> bool) -> int { (p: T -> bool) => Sum(f, Filter(p, s)) }

  /** If the selections divide up s, the sums of the shares add up to the sum of s. */
  lemma {:induction false} SharesTotal<T>(f: T -> int, picks: seq<T -> bool>, s: seq<T>)
    requires forall i :: 0 <= i < |s| ==> TakenOnce(picks, s[i])
    ensures Sum(Share(f, s), picks) == Sum(f, s)
  {
    if s == [] {
      SumVanishes(Share(f, s), picks);
    } else {
      var init, e := s[..|s| - 1], s[|s| - 1];
      SharesTotal(f, picks, init);
      var gain := (p: T -> bool) => if p(e) then f(e) else 0;
      forall i | 0 <= i < |picks|
        ensures Share(f, s)(picks[i]) == Share(f, init)(picks[i]) + gain(picks[i])
      {
        SumAppend(f, Filter(picks[i], init), if picks[i](e) then [e] else []);
        assert [e][..0] == [];
      }
      SumPlus(Share(f, init), gain, Share(f, s), picks);
      assert TakenOnce(picks, s[|s| - 1]);
      var h :| 0 <= h < |picks| && picks[h](e) && forall g :: 0 <= g < |picks| && g != h ==> !picks[g](e);
      SumSingle(gain, picks, h);
    }
  }

  /** The concatenation of the sequences in ss. */
  function Flatten<T>(ss: seq<seq<T>>): seq<T>
  {
    if ss == [] then [] else Flatten(ss[..|ss| - 1]) + ss[|ss| - 1]
  }

  lemma {:induction false} FlattenAppend<T>(a: seq<seq<T>>, b: seq<seq<T>>)
    ensures Flatten(a + b) == Flatten(a) + Flatten(b)
  {
    if b == [] {
      assert a + b == a;
    } else {
      var init, last := b[..|b| - 1], b[|b| - 1];
      FlattenAppend(a, init);
      assert (a + b)[..|a + b| - 1] == a + init && (a + b)[|a + b| - 1] == last;
      calc {
        Flatten(a + b);
        Flatten(a + init) + last;
        (Flatten(a) + Flatten(init)) + last;
        Flatten(a) + (Flatten(init) + last);
        Flatten(a) + Flatten(b);
      }
    }
  }

  lemma {:induction false} FlattenCons<T>(x: seq<T>, xs: seq<seq<T>>)
    ensures Flatten([x] + xs) == x + Flatten(xs)
  {
    FlattenAppend([x], xs);
    assert Flatten([x]) == Flatten([x][..0]) + x == x;
  }

  ghost predicate Distinct<T(!new)>(s: seq<T>)
  {
    forall i, j :: 0 <= i < j < |s| ==> s[i] != s[j]
  }
}
