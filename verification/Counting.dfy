/** Sizes of finite sets, and ordered selections from a sequence. */
module Counting {
  import opened Core

  lemma {:induction false} Pigeonhole<A, B>(s: set<A>, t: set<B>, f: A -> B)
    requires forall a :: a in s ==> f(a) in t
    requires forall a, b :: a in s && b in s && f(a) == f(b) ==> a == b
    ensures |s| <= |t|
    decreases |s|
  {
    if s != {} {
      var a :| a in s;
      Pigeonhole(s - {a}, t - {f(a)}, f);
    }
  }

  lemma {:induction false} SubsetSize<A>(s: set<A>, t: set<A>)
    requires s <= t
    ensures |s| <= |t| && (|s| == |t| ==> s == t)
    decreases |s|
  {
    if s != {} {
      var a :| a in s;
      SubsetSize(s - {a}, t - {a});
      assert |s| == |t| ==> s == (s - {a}) + {a} && t == (t - {a}) + {a};
    }
  }

  /** Dividing once more by n, by counting down. */
  function Share(m: int, n: nat): (q: nat)
    requires n > 0
    ensures m >= 0 ==> n * q <= m < n * (q + 1)
    decreases if m < n then 0 else m - n + 1
  {
    if m < n then 0 else 1 + Share(m - n, n)
  }

  lemma Multiples(n: nat, a: nat, b: nat)
    requires n > 0
    ensures n * a < n * (b + 1) ==> a <= b
  {
    if a > b { assert n * a == n * (b + 1) + n * (a - b - 1); }
  }

  lemma ShareIsQuotient(m: nat, n: nat, q: nat)
    requires n > 0 && n * q <= m < n * (q + 1)
    ensures m / n == q
  {
    Multiples(n, q, m / n);
    Multiples(n, m / n, q);
  }

  function Pairs<A, B>(s: set<A>, t: set<B>): set<(A, B)> {
    set a, b | a in s && b in t :: (a, b)
  }

  lemma {:induction false} RowSize<A, B>(a: A, t: set<B>)
    ensures |Pairs({a}, t)| == |t|
    decreases |t|
  {
    if t == {} {
      assert Pairs({a}, t) == {};
    } else {
      var b :| b in t;
      RowSize(a, t - {b});
      assert Pairs({a}, t) == Pairs({a}, t - {b}) + {(a, b)};
    }
  }

  lemma PairsSplit<A, B>(s: set<A>, t: set<B>, a: A)
    requires a in s
    ensures |Pairs(s, t)| == |Pairs(s - {a}, t)| + |Pairs({a}, t)|
  {
    assert Pairs(s, t) == Pairs(s - {a}, t) + Pairs({a}, t);
    assert Pairs(s - {a}, t) !! Pairs({a}, t);
  }

  lemma {:induction false} PairsSize<A, B>(s: set<A>, t: set<B>)
    ensures |Pairs(s, t)| == |s| * |t|
    decreases |s|
  {
    if s == {} {
      assert Pairs(s, t) == {};
    } else {
      var a :| a in s;
      PairsSize(s - {a}, t);
      RowSize(a, t);
      PairsSplit(s, t, a);
      assert |s| * |t| == |s - {a}| * |t| + |t|;
    }
  }

  /** The members of ids that are in good, in order. */
  function Select<T(==)>(ids: seq<T>, good: set<T>): seq<T> {
    if ids == [] then [] else (if ids[0] in good then [ids[0]] else []) + Select(ids[1..], good)
  }

  lemma {:induction false} SelectMembers<T>(ids: seq<T>, good: set<T>)
    ensures forall k :: 0 <= k < |Select(ids, good)| ==> Select(ids, good)[k] in ids && Select(ids, good)[k] in good
  {
    if ids != [] { SelectMembers(ids[1..], good); }
  }

  lemma {:induction false} SelectDistinct<T>(ids: seq<T>, good: set<T>)
    requires Distinct(ids)
    ensures Distinct(Select(ids, good))
  {
    if ids != [] {
      SelectDistinct(ids[1..], good);
      SelectMembers(ids[1..], good);
      assert ids[0] !in ids[1..];
      assert ids[0] in good ==> Select(ids, good)[1..] == Select(ids[1..], good);
    }
  }

  function Both<T(==)>(ids: seq<T>, good: set<T>): set<T> { set id | id in ids && id in good }

  lemma {:induction false} SelectSize<T>(ids: seq<T>, good: set<T>)
    requires Distinct(ids)
    ensures |Select(ids, good)| == |Both(ids, good)|
  {
    if ids != [] {
      SelectSize(ids[1..], good);
      assert ids[0] !in ids[1..];
      assert Both(ids, good) == Both(ids[1..], good) + if ids[0] in good then {ids[0]} else {};
    }
  }

  /** Selecting from a sequence that lists all the good ones once finds them all. */
  lemma SelectCounts<T>(ids: seq<T>, good: set<T>)
    requires Distinct(ids) && forall g :: g in good ==> g in ids
    ensures |Select(ids, good)| == |good|
  {
    SelectSize(ids, good);
    assert Both(ids, good) == good;
  }

  /** The first n selected are the first in order: an earlier good one is taken before a later one. */
  lemma {:induction false} SelectFirst<T>(ids: seq<T>, good: set<T>, n: nat, i: nat, j: nat)
    requires Distinct(ids) && n <= |Select(ids, good)| && i < j < |ids|
    requires ids[i] in good && ids[j] in Select(ids, good)[..n]
    ensures ids[i] in Select(ids, good)[..n]
    decreases |ids|
  {
    var all, rest := Select(ids, good), Select(ids[1..], good);
    assert ids[j] != ids[0] && ids[1..][j - 1] == ids[j];
    if ids[0] in good {
      assert all == [ids[0]] + rest;
      assert n > 0 && all[..n] == [ids[0]] + rest[..n - 1];
      if i > 0 {
        assert ids[1..][i - 1] == ids[i];
        SelectFirst(ids[1..], good, n - 1, i - 1, j - 1);
      }
    } else {
      assert all == rest;
      assert ids[1..][i - 1] == ids[i];
      SelectFirst(ids[1..], good, n, i - 1, j - 1);
    }
  }

  lemma {:induction false} SelectAppend<T>(xs: seq<T>, ys: seq<T>, good: set<T>)
    ensures Select(xs + ys, good) == Select(xs, good) + Select(ys, good)
  {
    if xs == [] {
      assert xs + ys == ys;
    } else {
      SelectAppend(xs[1..], ys, good);
      assert (xs + ys)[0] == xs[0] && (xs + ys)[1..] == xs[1..] + ys;
      var first := if xs[0] in good then [xs[0]] else [];
      assert first + (Select(xs[1..], good) + Select(ys, good)) == first + Select(xs[1..], good) + Select(ys, good);
    }
  }

  lemma {:induction false} SelectNone<T>(xs: seq<T>, good: set<T>)
    requires forall i :: 0 <= i < |xs| ==> xs[i] !in good
    ensures Select(xs, good) == []
  {
    if xs != [] { SelectNone(xs[1..], good); }
  }

  /** Selecting fewer from a selection. */
  lemma {:induction false} SelectTwice<T>(xs: seq<T>, good: set<T>, best: set<T>)
    requires best <= good
    ensures Select(Select(xs, good), best) == Select(xs, best)
  {
    if xs != [] {
      SelectTwice(xs[1..], good, best);
      if xs[0] in good {
        var all := Select(xs, good);
        assert all == [xs[0]] + Select(xs[1..], good);
        assert all[0] == xs[0] && all[1..] == Select(xs[1..], good);
      } else {
        assert Select(xs, good) == Select(xs[1..], good);
      }
    }
  }

  /** Selecting, from a grown list, some of the first n selected before. */
  lemma SelectLater<T>(before: seq<T>, after: seq<T>, good: set<T>, n: nat, best: set<T>)
    requires before <= after && Distinct(after) && n <= |Select(before, good)|
    requires forall x :: x in best ==> x in Select(before, good)[..n]
    ensures Select(after, best) == Select(Select(before, good)[..n], best)
  {
    var all := Select(before, good);
    SelectMembers(before, good);
    SelectDistinct(before, good);
    SelectTwice(before, good, best);
    assert all == all[..n] + all[n..] && after == before + after[|before|..];
    SelectAppend(all[..n], all[n..], best);
    SelectAppend(before, after[|before|..], best);
    forall i | 0 <= i < |all[n..]| ensures all[n..][i] !in best { assert all[n..][i] == all[n + i]; }
    SelectNone(all[n..], best);
    forall i | 0 <= i < |after[|before|..]| ensures after[|before|..][i] !in best {
      var x := after[|before|..][i];
      assert x == after[|before| + i];
    }
    SelectNone(after[|before|..], best);
  }

  /** The n chosen ones are good, and no good one before a chosen one was passed over. */
  predicate FirstOf<T(==)>(ids: seq<T>, good: set<T>, chosen: seq<T>) {
    && (forall k :: 0 <= k < |chosen| ==> chosen[k] in ids && chosen[k] in good)
    && (forall i, j :: 0 <= i < j < |ids| && ids[i] in good && ids[j] in chosen ==> ids[i] in chosen)
  }

  lemma SelectIsFirst<T>(ids: seq<T>, good: set<T>, n: nat)
    requires Distinct(ids) && n <= |Select(ids, good)|
    ensures FirstOf(ids, good, Select(ids, good)[..n])
  {
    var chosen := Select(ids, good)[..n];
    SelectMembers(ids, good);
    forall i, j | 0 <= i < j < |ids| && ids[i] in good && ids[j] in chosen ensures ids[i] in chosen {
      SelectFirst(ids, good, n, i, j);
    }
  }

  function Elements<T(==)>(ids: seq<T>): set<T> { set id | id in ids }

  lemma {:induction false} DistinctSize<T>(ids: seq<T>)
    requires Distinct(ids)
    ensures |Elements(ids)| == |ids|
  {
    if ids != [] {
      DistinctSize(ids[1..]);
      assert ids[0] !in ids[1..];
      assert Elements(ids) == Elements(ids[1..]) + {ids[0]};
    }
  }

  /** A list as long as another, without repetition and drawn from it, misses nothing of it. */
  lemma SameLengthCovers<T>(asked: seq<T>, got: seq<T>)
    requires Distinct(asked) && Distinct(got) && |got| == |asked| && forall i :: 0 <= i < |got| ==> got[i] in asked
    ensures forall i :: 0 <= i < |asked| ==> asked[i] in got
    ensures multiset(got) == multiset(asked)
  {
    DistinctSize(asked);
    DistinctSize(got);
    SubsetSize(Elements(got), Elements(asked));
    forall i | 0 <= i < |asked| ensures asked[i] in got { assert asked[i] in Elements(asked); }
    forall x ensures multiset(got)[x] == multiset(asked)[x] {
      DistinctOnce(asked, x);
      DistinctOnce(got, x);
      assert x in Elements(got) <==> x in Elements(asked);
    }
  }

  lemma {:induction false} DistinctOnce<T>(ids: seq<T>, x: T)
    requires Distinct(ids)
    ensures multiset(ids)[x] == if x in ids then 1 else 0
  {
    if ids != [] {
      assert ids == [ids[0]] + ids[1..];
      DistinctOnce(ids[1..], x);
    }
  }
}
