/**
  The start-time repair and the stable sort that follow parsing. Entries carry any payload; owner gives the
  connection of a payload.
 */
module Ordering {
  import opened Seqs

  datatype Timed<+T> = Timed(item: T, start: int)

  /** The default-constructed time point. */
  const EPOCH: int := 0

  function OwnedBy<T>(owner: T -> nat, c: nat): Timed<T> -> bool { (e: Timed<T>) => owner(e.item) == c }

  function StartingAt<T>(t: int): Timed<T> -> bool { (e: Timed<T>) => e.start == t }

  function Items<T>(es: seq<Timed<T>>): (r: seq<T>)
    ensures |r| == |es| && forall i :: 0 <= i < |r| ==> r[i] == es[i].item
  {
    seq(|es|, i requires 0 <= i < |es| => es[i].item)
  }

  // ---------- Clamping ----------

  /** The latest start of connection c among es, the epoch if there is none later. */
  function Latest<T>(owner: T -> nat, es: seq<Timed<T>>, c: nat): int
  {
    if es == [] then EPOCH
    else
      var prior, e := Latest(owner, es[..|es| - 1], c), es[|es| - 1];
      if owner(e.item) == c && prior < e.start then e.start else prior
  }

  /** Every start raised to the latest start its connection has reached. */
  function Clamped<T>(owner: T -> nat, es: seq<Timed<T>>): (r: seq<Timed<T>>)
    ensures |r| == |es|
  {
    if es == [] then []
    else
      var e := es[|es| - 1];
      Clamped(owner, es[..|es| - 1]) + [e.(start := Latest(owner, es, owner(e.item)))]
  }

  lemma {:induction false} ClampedAt<T>(owner: T -> nat, es: seq<Timed<T>>, i: nat)
    requires i < |es|
    ensures Clamped(owner, es)[i] == es[i].(start := Latest(owner, es[..i + 1], owner(es[i].item)))
  {
    var n := |es| - 1;
    if i < n {
      ClampedAt(owner, es[..n], i);
      assert es[..n][..i + 1] == es[..i + 1];
    } else {
      assert es[..i + 1] == es;
    }
  }

  /** Latest is an upper bound of the epoch and the connection's starts, and the least one. */
  lemma {:induction false} LatestIsSupremum<T>(owner: T -> nat, es: seq<Timed<T>>, c: nat, bound: int)
    ensures EPOCH <= Latest(owner, es, c)
    ensures forall i :: 0 <= i < |es| && owner(es[i].item) == c ==> es[i].start <= Latest(owner, es, c)
    ensures EPOCH <= bound && (forall i :: 0 <= i < |es| && owner(es[i].item) == c ==> es[i].start <= bound)
            ==> Latest(owner, es, c) <= bound
  {
    if es != [] {
      LatestIsSupremum(owner, es[..|es| - 1], c, bound);
    }
  }

  /** Starts that are no earlier than the original ones or the epoch and never decrease along a connection. */
  ghost predicate Repairs<T>(owner: T -> nat, es: seq<Timed<T>>, starts: seq<int>)
  {
    && |starts| == |es|
    && (forall i :: 0 <= i < |es| ==> es[i].start <= starts[i] && EPOCH <= starts[i])
    && (forall i, j :: 0 <= i < j < |es| && owner(es[i].item) == owner(es[j].item) ==> starts[i] <= starts[j])
  }

  function Starts<T>(es: seq<Timed<T>>): (r: seq<int>)
    ensures |r| == |es| && forall i :: 0 <= i < |r| ==> r[i] == es[i].start
  {
    seq(|es|, i requires 0 <= i < |es| => es[i].start)
  }

  /** Clamping touches only the starts, and its starts are a repair. */
  lemma {:induction false} ClampRepairs<T>(owner: T -> nat, es: seq<Timed<T>>)
    ensures Items(Clamped(owner, es)) == Items(es)
    ensures Repairs(owner, es, Starts(Clamped(owner, es)))
  {
    var cl := Clamped(owner, es);
    forall i | 0 <= i < |es|
      ensures cl[i].item == es[i].item && es[i].start <= cl[i].start && EPOCH <= cl[i].start
    {
      ClampedAt(owner, es, i);
      LatestIsSupremum(owner, es[..i + 1], owner(es[i].item), 0);
      assert es[..i + 1][i] == es[i];
    }
    forall i, j | 0 <= i < j < |es| && owner(es[i].item) == owner(es[j].item)
      ensures cl[i].start <= cl[j].start
    {
      ClampedAt(owner, es, i);
      ClampedAt(owner, es, j);
      LatestGrows(owner, es[..j + 1], i + 1, owner(es[i].item));
      assert es[..j + 1][..i + 1] == es[..i + 1];
    }
  }

  lemma {:induction false} LatestGrows<T>(owner: T -> nat, es: seq<Timed<T>>, k: nat, c: nat)
    requires k <= |es|
    ensures Latest(owner, es[..k], c) <= Latest(owner, es, c)
  {
    if k == |es| {
      assert es[..k] == es;
    } else {
      LatestGrows(owner, es[..|es| - 1], k, c);
      assert es[..|es| - 1][..k] == es[..k];
    }
  }

  /** Clamping is the least repair: no start is raised further than some repair needs. */
  lemma {:induction false} ClampIsLeast<T>(owner: T -> nat, es: seq<Timed<T>>, starts: seq<int>)
    requires Repairs(owner, es, starts)
    ensures forall i :: 0 <= i < |es| ==> Clamped(owner, es)[i].start <= starts[i]
  {
    forall i | 0 <= i < |es|
      ensures Clamped(owner, es)[i].start <= starts[i]
    {
      ClampedAt(owner, es, i);
      LatestIsSupremum(owner, es[..i + 1], owner(es[i].item), starts[i]);
    }
  }

  // ---------- Sorting ----------

  ghost predicate Sorted<T>(es: seq<Timed<T>>)
  {
    forall i, j :: 0 <= i < j < |es| ==> es[i].start <= es[j].start
  }

  /** e placed behind every entry that does not start later. */
  function Insert<T>(es: seq<Timed<T>>, e: Timed<T>): (r: seq<Timed<T>>)
    ensures |r| == |es| + 1
  {
    if es == [] || es[|es| - 1].start <= e.start then es + [e]
    else Insert(es[..|es| - 1], e) + [es[|es| - 1]]
  }

  /** The stable sort by start time. */
  function StableSorted<T>(es: seq<Timed<T>>): (r: seq<Timed<T>>)
    ensures |r| == |es|
  {
    if es == [] then [] else Insert(StableSorted(es[..|es| - 1]), es[|es| - 1])
  }

  lemma {:induction false} InsertPermutes<T>(es: seq<Timed<T>>, e: Timed<T>)
    ensures multiset(Insert(es, e)) == multiset(es) + multiset{e}
  {
    if es != [] && es[|es| - 1].start > e.start {
      InsertPermutes(es[..|es| - 1], e);
      assert es == es[..|es| - 1] + [es[|es| - 1]];
    }
  }

  lemma {:induction false} InsertSorts<T>(es: seq<Timed<T>>, e: Timed<T>)
    requires Sorted(es)
    ensures Sorted(Insert(es, e))
    ensures es != [] && e.start < es[|es| - 1].start ==> Insert(es, e)[|es|] == es[|es| - 1]
    ensures es == [] || es[|es| - 1].start <= e.start ==> Insert(es, e)[|es|] == e
  {
    if es != [] && es[|es| - 1].start > e.start {
      InsertSorts(es[..|es| - 1], e);
    }
  }

  lemma {:induction false} SortPermutes<T>(es: seq<Timed<T>>)
    ensures multiset(StableSorted(es)) == multiset(es)
  {
    if es != [] {
      SortPermutes(es[..|es| - 1]);
      InsertPermutes(StableSorted(es[..|es| - 1]), es[|es| - 1]);
      assert es == es[..|es| - 1] + [es[|es| - 1]];
    }
  }

  /** Sorting gives a sorted permutation. */
  lemma {:induction false} SortSorts<T>(es: seq<Timed<T>>)
    ensures Sorted(StableSorted(es)) && multiset(StableSorted(es)) == multiset(es)
  {
    SortPermutes(es);
    if es != [] {
      SortSorts(es[..|es| - 1]);
      InsertSorts(StableSorted(es[..|es| - 1]), es[|es| - 1]);
    }
  }

  /** Inserting e changes no selection that leaves e out; one that takes e gets it last if no member starts later. */
  lemma {:induction false} InsertFilter<T>(p: Timed<T> -> bool, es: seq<Timed<T>>, e: Timed<T>)
    requires p(e) ==> forall x :: x in es && p(x) ==> x.start <= e.start
    ensures Filter(p, Insert(es, e)) == Filter(p, es) + (if p(e) then [e] else [])
  {
    if es == [] || es[|es| - 1].start <= e.start {
      assert (es + [e])[..|es|] == es;
    } else {
      var init, last := es[..|es| - 1], es[|es| - 1];
      assert es == init + [last];
      InsertFilter(p, init, e);
      var r := Insert(init, e);
      assert (r + [last])[..|r|] == r;
    }
  }

  /** Entries that p selects and that do not decrease keep their order under the stable sort. */
  lemma {:induction false} SortKeepsOrder<T>(p: Timed<T> -> bool, es: seq<Timed<T>>)
    requires Sorted(Filter(p, es))
    ensures Filter(p, StableSorted(es)) == Filter(p, es)
  {
    if es != [] {
      var init, e := es[..|es| - 1], es[|es| - 1];
      var kept := Filter(p, init);
      assert Filter(p, es) == kept + (if p(e) then [e] else []);
      assert forall i :: 0 <= i < |kept| ==> kept[i] == Filter(p, es)[i];
      SortKeepsOrder(p, init);
      forall x | x in StableSorted(init) && p(x) && p(e)
        ensures x.start <= e.start
      {
        FilterMember(p, StableSorted(init), x);
        var i :| 0 <= i < |kept| && kept[i] == x;
        assert Filter(p, es)[i].start <= Filter(p, es)[|kept|].start;
      }
      InsertFilter(p, StableSorted(init), e);
    }
  }

  lemma {:induction false} FilterOfSorted<T>(p: Timed<T> -> bool, es: seq<Timed<T>>)
    requires Sorted(es)
    ensures Sorted(Filter(p, es))
  {
    if es != [] {
      var init := es[..|es| - 1];
      FilterOfSorted(p, init);
      var kept := Filter(p, init);
      forall i | 0 <= i < |kept|
        ensures kept[i].start <= es[|es| - 1].start
      {
        FilterMember(p, init, kept[i]);
      }
    }
  }

  /** Sorting keeps the order of a connection exactly when the connection's starts never decrease. */
  lemma {:induction false} SortKeepsConnectionIff<T>(owner: T -> nat, es: seq<Timed<T>>, c: nat)
    ensures Filter(OwnedBy(owner, c), StableSorted(es)) == Filter(OwnedBy(owner, c), es)
            <==> Sorted(Filter(OwnedBy(owner, c), es))
  {
    SortSorts(es);
    FilterOfSorted(OwnedBy(owner, c), StableSorted(es));
    if Sorted(Filter(OwnedBy(owner, c), es)) {
      SortKeepsOrder(OwnedBy(owner, c), es);
    }
  }

  /** Equal starts keep their order: the sort is stable. */
  lemma {:induction false} SortIsStable<T>(es: seq<Timed<T>>, t: int)
    ensures Filter(StartingAt(t), StableSorted(es)) == Filter(StartingAt(t), es)
  {
    var kept := Filter(StartingAt(t), es);
    forall i | 0 <= i < |kept|
      ensures kept[i].start == t
    {
      FilterMember(StartingAt(t), es, kept[i]);
    }
    SortKeepsOrder(StartingAt(t), es);
  }

  /** Any sorted sequence that keeps the order of equal starts is the stable sort: how it was sorted cannot matter. */
  lemma {:induction false} StableSortUnique<T>(es: seq<Timed<T>>, other: seq<Timed<T>>)
    requires Sorted(other)
    requires forall t :: Filter(StartingAt(t), other) == Filter(StartingAt(t), es)
    ensures other == StableSorted(es)
  {
    SortSorts(es);
    forall t
      ensures Filter(StartingAt(t), other) == Filter(StartingAt(t), StableSorted(es))
    {
      SortIsStable(es, t);
    }
    SortedEqual(other, StableSorted(es));
  }

  lemma {:induction false} SortedEqual<T>(a: seq<Timed<T>>, b: seq<Timed<T>>)
    requires Sorted(a) && Sorted(b)
    requires forall t :: Filter(StartingAt(t), a) == Filter(StartingAt(t), b)
    ensures a == b
  {
    if a == [] {
      if b != [] {
        var _ := EndsSelection(b);
      }
    } else {
      var t := EndsSelection(a);
      FilterMember(StartingAt(t), b, a[|a| - 1]);
      assert b != [] by {
        assert Filter(StartingAt(t), b) != [];
      }
      var u := EndsSelection(b);
      FilterMember(StartingAt(u), a, b[|b| - 1]);
      assert t == u;
      var a', b' := a[..|a| - 1], b[..|b| - 1];
      assert a[|a| - 1] == b[|b| - 1];
      forall s
        ensures Filter(StartingAt(s), a') == Filter(StartingAt(s), b')
      {
        SelectionsWithoutLast(StartingAt(s), a, b);
      }
      SortedEqual(a', b');
      assert a == a' + [a[|a| - 1]] && b == b' + [b[|b| - 1]];
    }
  }

  lemma {:induction false} SelectionsWithoutLast<T>(p: Timed<T> -> bool, a: seq<Timed<T>>, b: seq<Timed<T>>)
    requires a != [] && b != [] && a[|a| - 1] == b[|b| - 1]
    requires Filter(p, a) == Filter(p, b)
    ensures Filter(p, a[..|a| - 1]) == Filter(p, b[..|b| - 1])
  {
    var n := if p(a[|a| - 1]) then |Filter(p, a)| - 1 else |Filter(p, a)|;
    assert Filter(p, a[..|a| - 1]) == Filter(p, a)[..n];
    assert Filter(p, b[..|b| - 1]) == Filter(p, b)[..n];
  }

  /** The last entry ends the selection of its own start. */
  lemma EndsSelection<T>(a: seq<Timed<T>>) returns (t: int)
    requires a != []
    ensures t == a[|a| - 1].start
    ensures Filter(StartingAt(t), a) != [] && Filter(StartingAt(t), a)[|Filter(StartingAt(t), a)| - 1] == a[|a| - 1]
  {
    t := a[|a| - 1].start;
  }

  // ---------- Both together ----------

  /** What the reader does to the parsed entries when sorting is on. */
  function Preprocessed<T>(owner: T -> nat, es: seq<Timed<T>>): (r: seq<Timed<T>>)
    ensures |r| == |es|
  {
    StableSorted(Clamped(owner, es))
  }

  /** Clamping leaves every connection's starts non-decreasing. */
  lemma {:induction false} ClampSortsConnections<T>(owner: T -> nat, es: seq<Timed<T>>, c: nat)
    ensures Sorted(Filter(OwnedBy(owner, c), Clamped(owner, es)))
  {
    if es != [] {
      var init, e := es[..|es| - 1], es[|es| - 1];
      ClampSortsConnections(owner, init, c);
      var p := OwnedBy(owner, c);
      var cl := Clamped(owner, es);
      assert cl[..|es| - 1] == Clamped(owner, init);
      var kept := Filter(p, Clamped(owner, init));
      ClampRepairs(owner, es);
      forall i | 0 <= i < |kept| && p(cl[|es| - 1])
        ensures kept[i].start <= cl[|es| - 1].start
      {
        FilterMember(p, Clamped(owner, init), kept[i]);
        var k :| 0 <= k < |init| && cl[k] == kept[i];
        assert Items(cl)[k] == Items(es)[k] && Items(cl)[|es| - 1] == Items(es)[|es| - 1];
        assert Starts(cl)[k] <= Starts(cl)[|es| - 1];
      }
    }
  }

  /** Selecting a connection commutes with reading the payloads. */
  lemma {:induction false} FilterItems<T>(owner: T -> nat, a: seq<Timed<T>>, b: seq<Timed<T>>, c: nat)
    requires Items(a) == Items(b)
    ensures Items(Filter(OwnedBy(owner, c), a)) == Items(Filter(OwnedBy(owner, c), b))
  {
    assert |a| == |Items(a)| == |b|;
    if a != [] {
      var n := |a| - 1;
      assert Items(a[..n]) == Items(a)[..n] == Items(b)[..n] == Items(b[..n]);
      assert Items(a)[n] == Items(b)[n];
      FilterItems(owner, a[..n], b[..n], c);
    }
  }

  /**
    Preprocessing keeps the meaning of the log: its result is a sorted permutation of the clamped entries, and
    every connection still issues the same payloads in the order of the file.
   */
  lemma {:induction false} PreprocessingKeepsMeaning<T>(owner: T -> nat, es: seq<Timed<T>>, c: nat)
    ensures Sorted(Preprocessed(owner, es))
    ensures multiset(Preprocessed(owner, es)) == multiset(Clamped(owner, es))
    ensures Items(Filter(OwnedBy(owner, c), Preprocessed(owner, es))) == Items(Filter(OwnedBy(owner, c), es))
  {
    SortSorts(Clamped(owner, es));
    ClampSortsConnections(owner, es, c);
    SortKeepsOrder(OwnedBy(owner, c), Clamped(owner, es));
    ClampRepairs(owner, es);
    FilterItems(owner, Clamped(owner, es), es, c);
  }

  lemma {:induction false} SortOfSorted<T>(es: seq<Timed<T>>)
    requires Sorted(es)
    ensures StableSorted(es) == es
  {
    if es != [] {
      var init, e := es[..|es| - 1], es[|es| - 1];
      SortOfSorted(init);
      assert es == init + [e];
    }
  }

  lemma {:induction false} ClampOfRepaired<T>(owner: T -> nat, es: seq<Timed<T>>)
    requires Repairs(owner, es, Starts(es))
    ensures Clamped(owner, es) == es
  {
    ClampIsLeast(owner, es, Starts(es));
    ClampRepairs(owner, es);
    var cl := Clamped(owner, es);
    forall i | 0 <= i < |es|
      ensures cl[i] == es[i]
    {
      assert Items(cl)[i] == Items(es)[i];
      assert Starts(cl)[i] >= es[i].start;
    }
  }

  /** No start after preprocessing precedes the epoch. */
  lemma PreprocessedFromEpoch<T>(owner: T -> nat, es: seq<Timed<T>>)
    ensures forall i :: 0 <= i < |es| ==> EPOCH <= Preprocessed(owner, es)[i].start
  {
    var cl, out := Clamped(owner, es), Preprocessed(owner, es);
    SortSorts(cl);
    ClampRepairs(owner, es);
    forall i | 0 <= i < |out|
      ensures EPOCH <= out[i].start
    {
      assert out[i] in multiset(cl);
      var k :| 0 <= k < |cl| && cl[k] == out[i];
      assert Starts(cl)[k] >= EPOCH;
    }
  }

  /** Preprocessing again changes nothing. */
  lemma PreprocessingIdempotent<T>(owner: T -> nat, es: seq<Timed<T>>)
    ensures Preprocessed(owner, Preprocessed(owner, es)) == Preprocessed(owner, es)
  {
    var out := Preprocessed(owner, es);
    PreprocessedFromEpoch(owner, es);
    SortSorts(Clamped(owner, es));
    assert Repairs(owner, out, Starts(out));
    ClampOfRepaired(owner, out);
    SortOfSorted(out);
  }
}
