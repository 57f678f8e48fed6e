// The online top-k of crates/biei-core/src/dispatcher.rs: members arrive one by
// one, and a short list ordered by rendezvous weight is kept. The weight is an
// arbitrary function of the member.
module Hrw {
  import opened Types

  // ---- the stable descending sort ----

  ghost predicate Descending<T>(xs: seq<T>, w: T -> nat)
  {
    forall i, j :: 0 <= i < j < |xs| ==> w(xs[i]) >= w(xs[j])
  }

  // The elements of one weight, in order.
  ghost function OfWeight<T>(xs: seq<T>, w: T -> nat, v: nat): (r: seq<T>)
  {
    if xs == [] then [] else (if w(xs[0]) == v then [xs[0]] else []) + OfWeight(xs[1..], w, v)
  }

  // `ys` is `xs` sorted by falling weight with equal weights left in order.
  ghost predicate StableSortOf<T>(ys: seq<T>, xs: seq<T>, w: T -> nat)
  {
    Descending(ys, w) && forall v :: OfWeight(ys, w, v) == OfWeight(xs, w, v)
  }

  ghost function Insert<T>(top: seq<T>, x: T, w: T -> nat): (r: seq<T>)
  {
    if top == [] then [x]
    else if w(x) > w(top[0]) then [x] + top
    else [top[0]] + Insert(top[1..], x, w)
  }

  ghost function Sort<T>(xs: seq<T>, w: T -> nat): (r: seq<T>)
  {
    if xs == [] then [] else Insert(Sort(xs[..|xs| - 1], w), xs[|xs| - 1], w)
  }

  ghost function Take<T>(xs: seq<T>, k: nat): (r: seq<T>)
  {
    if |xs| <= k then xs else xs[..k]
  }

  function Keep<T>(xs: seq<T>, p: T -> bool): (r: seq<T>)
  {
    if xs == [] then [] else Keep(xs[..|xs| - 1], p) + (if p(xs[|xs| - 1]) then [xs[|xs| - 1]] else [])
  }

  lemma OfWeightStep<T>(x: T, xs: seq<T>, w: T -> nat, v: nat)
    ensures OfWeight([x] + xs, w, v) == (if w(x) == v then [x] else []) + OfWeight(xs, w, v)
  {
    assert ([x] + xs)[1..] == xs;
  }

  lemma {:induction false} OfWeightConcat<T>(xs: seq<T>, ys: seq<T>, w: T -> nat, v: nat)
    ensures OfWeight(xs + ys, w, v) == OfWeight(xs, w, v) + OfWeight(ys, w, v)
  {
    if xs == [] {
      assert xs + ys == ys;
    } else {
      hide OfWeight;
      assert xs == [xs[0]] + xs[1..] && xs + ys == [xs[0]] + (xs[1..] + ys);
      OfWeightStep(xs[0], xs[1..], w, v);
      OfWeightStep(xs[0], xs[1..] + ys, w, v);
      OfWeightConcat(xs[1..], ys, w, v);
    }
  }

  lemma {:induction false} OfWeightMembers<T(!new)>(xs: seq<T>, w: T -> nat, v: nat)
    ensures forall y :: y in OfWeight(xs, w, v) <==> y in xs && w(y) == v
  {
    if xs != [] {
      OfWeightMembers(xs[1..], w, v);
      assert forall y :: y in xs <==> y == xs[0] || y in xs[1..];
    }
  }

  lemma {:induction false} NoneOfWeight<T>(xs: seq<T>, w: T -> nat, v: nat)
    requires forall i :: 0 <= i < |xs| ==> w(xs[i]) != v
    ensures OfWeight(xs, w, v) == []
  {
    if xs != [] {
      NoneOfWeight(xs[1..], w, v);
    }
  }

  lemma {:induction false} InsertSorted<T(!new)>(top: seq<T>, x: T, w: T -> nat)
    requires Descending(top, w)
    ensures Descending(Insert(top, x, w), w)
    ensures forall y :: y in Insert(top, x, w) <==> y == x || y in top
  {
    if top != [] {
      assert forall y :: y in top <==> y == top[0] || y in top[1..];
      if w(x) <= w(top[0]) {
        InsertSorted(top[1..], x, w);
        InsertBelow(top, x, w);
        hide Insert;
        DescendingCons(top[0], Insert(top[1..], x, w), w);
      } else {
        DescendingCons(x, top, w);
      }
    }
  }

  lemma InsertBelow<T>(top: seq<T>, x: T, w: T -> nat)
    requires top != [] && w(x) <= w(top[0])
    ensures Insert(top, x, w) == [top[0]] + Insert(top[1..], x, w)
  {
  }

  lemma InsertFront<T>(top: seq<T>, x: T, w: T -> nat)
    requires top == [] || w(x) > w(top[0])
    ensures Insert(top, x, w) == [x] + top
  {
    assert [x] + [] == [x];
  }

  lemma DescendingCons<T>(h: T, t: seq<T>, w: T -> nat)
    requires Descending(t, w) && forall y :: y in t ==> w(y) <= w(h)
    ensures Descending([h] + t, w)
  {
    var s := [h] + t;
    assert forall i :: 0 < i < |s| ==> s[i] == t[i - 1] && t[i - 1] in t;
  }

  lemma {:induction false} InsertOfWeight<T(!new)>(top: seq<T>, x: T, w: T -> nat, v: nat)
    requires Descending(top, w)
    ensures OfWeight(Insert(top, x, w), w, v) == OfWeight(top + [x], w, v)
  {
    OfWeightConcat(top, [x], w, v);
    if top == [] {
      assert top + [x] == [x];
    } else if w(x) > w(top[0]) {
      OfWeightConcat([x], top, w, v);
      if w(x) == v {
        NoneOfWeight(top, w, v);
      }
    } else {
      InsertOfWeight(top[1..], x, w, v);
      OfWeightConcat(top[1..], [x], w, v);
      OfWeightConcat([top[0]], Insert(top[1..], x, w), w, v);
      OfWeightConcat([top[0]], top[1..], w, v);
      assert [top[0]] + top[1..] == top;
    }
  }

  lemma {:induction false} SortIsStable<T(!new)>(xs: seq<T>, w: T -> nat)
    ensures StableSortOf(Sort(xs, w), xs, w)
  {
    if xs != [] {
      var init, x := xs[..|xs| - 1], xs[|xs| - 1];
      SortIsStable(init, w);
      InsertSorted(Sort(init, w), x, w);
      assert init + [x] == xs;
      forall v ensures OfWeight(Sort(xs, w), w, v) == OfWeight(xs, w, v) {
        InsertOfWeight(Sort(init, w), x, w, v);
        OfWeightConcat(Sort(init, w), [x], w, v);
        OfWeightConcat(init, [x], w, v);
      }
    }
  }

  lemma HeadOfWeight<T(!new)>(xs: seq<T>, ys: seq<T>, w: T -> nat)
    requires xs != [] && Descending(ys, w)
    requires OfWeight(xs, w, w(xs[0])) == OfWeight(ys, w, w(xs[0]))
    ensures ys != [] && w(ys[0]) >= w(xs[0])
  {
    var v := w(xs[0]);
    assert OfWeight(xs, w, v)[0] == xs[0];
    OfWeightMembers(ys, w, v);
    assert xs[0] in OfWeight(ys, w, v);
  }

  // The property determines the list: there is only one stable sort.
  lemma {:induction false} StableSortIsUnique<T(!new)>(ys: seq<T>, zs: seq<T>, w: T -> nat)
    requires Descending(ys, w) && Descending(zs, w)
    requires forall v :: OfWeight(ys, w, v) == OfWeight(zs, w, v)
    ensures ys == zs
  {
    if ys == [] {
      if zs != [] {
        HeadOfWeight(zs, ys, w);
      }
    } else {
      HeadOfWeight(ys, zs, w);
      HeadOfWeight(zs, ys, w);
      assert OfWeight(ys, w, w(ys[0]))[0] == ys[0] && OfWeight(zs, w, w(ys[0]))[0] == zs[0];
      forall v ensures OfWeight(ys[1..], w, v) == OfWeight(zs[1..], w, v) {
        assert OfWeight(ys, w, v) == OfWeight(zs, w, v);
        var d := if w(ys[0]) == v then 1 else 0;
        assert OfWeight(ys, w, v)[d..] == OfWeight(ys[1..], w, v);
        assert OfWeight(zs, w, v)[d..] == OfWeight(zs[1..], w, v);
      }
      StableSortIsUnique(ys[1..], zs[1..], w);
      assert ys == [ys[0]] + ys[1..] && zs == [zs[0]] + zs[1..];
    }
  }

  // ---- the online loop ----

  lemma {:induction false} InsertAt<T>(top: seq<T>, x: T, w: T -> nat, i: nat)
    requires i <= |top|
    requires forall j :: 0 <= j < i ==> w(x) <= w(top[j])
    requires i < |top| ==> w(x) > w(top[i])
    ensures Insert(top, x, w) == top[..i] + [x] + top[i..]
  {
    hide Insert;
    if i > 0 {
      InsertBelow(top, x, w);
      var front, back := top[1..][..i - 1], top[1..][i - 1..];
      InsertAt(top[1..], x, w, i - 1);
      assert top[..i] == [top[0]] + front;
      assert top[i..] == back;
      assert [top[0]] + (front + [x] + back) == [top[0]] + front + [x] + back;
    } else {
      InsertFront(top, x, w);
      assert top[..0] + [x] + top[0..] == [x] + top;
    }
  }

  // What was truncated can never come back.
  lemma {:induction false} TakeInsert<T>(s: seq<T>, x: T, w: T -> nat, k: nat)
    ensures Take(Insert(Take(s, k), x, w), k) == Take(Insert(s, x, w), k)
  {
    if |s| > k && k > 0 && w(x) <= w(s[0]) {
      TakeInsert(s[1..], x, w, k - 1);
      assert Take(s, k)[1..] == Take(s[1..], k - 1);
    }
  }

  method InsertionPoint<T>(top: seq<T>, x: T, w: T -> nat) returns (i: nat)
    ensures i <= |top|
    ensures forall j :: 0 <= j < i ==> w(x) <= w(top[j])
    ensures i < |top| ==> w(x) > w(top[i])
  {
    i := 0;
    while i < |top| && w(x) <= w(top[i])
      invariant i <= |top|
      invariant forall j :: 0 <= j < i ==> w(x) <= w(top[j])
    {
      i := i + 1;
    }
  }

  method TopCandidates<T>(members: seq<T>, eligible: T -> bool, w: T -> nat, limit: nat) returns (top: seq<T>)
    ensures top == Take(Sort(Keep(members, eligible), w), limit)
  {
    top := [];
    assert Keep(members[..0], eligible) == [];
    for n := 0 to |members|
      invariant top == Take(Sort(Keep(members[..n], eligible), w), limit)
    {
      ghost var kept := Keep(members[..n], eligible);
      var x := members[n];
      assert members[..n + 1][..n] == members[..n];
      if eligible(x) {
        assert Keep(members[..n + 1], eligible) == kept + [x];
        assert (kept + [x])[..|kept|] == kept;
        TakeInsert(Sort(kept, w), x, w, limit);
        var at := InsertionPoint(top, x, w);
        InsertAt(top, x, w, at);
        if at < limit {
          top := top[..at] + [x] + top[at..];
          if |top| > limit {
            top := top[..limit];
          }
        } else {
          assert Take(Insert(top, x, w), limit) == top;
        }
      } else {
        assert Keep(members[..n + 1], eligible) == kept;
      }
    }
    assert members[..|members|] == members;
  }

  // ---- removing a member ----

  lemma {:induction false} KeepConcat<T>(xs: seq<T>, ys: seq<T>, p: T -> bool)
    ensures Keep(xs + ys, p) == Keep(xs, p) + Keep(ys, p)
  {
    if ys == [] {
      assert xs + ys == xs;
    } else {
      assert (xs + ys)[..|xs + ys| - 1] == xs + ys[..|ys| - 1];
      KeepConcat(xs, ys[..|ys| - 1], p);
    }
  }

  lemma {:induction false} KeepMembers<T(!new)>(xs: seq<T>, p: T -> bool)
    ensures forall y :: y in Keep(xs, p) <==> y in xs && p(y)
  {
    if xs != [] {
      KeepMembers(xs[..|xs| - 1], p);
      assert forall y :: y in xs <==> y == xs[|xs| - 1] || y in xs[..|xs| - 1];
    }
  }

  lemma {:induction false} KeepDescending<T(!new)>(xs: seq<T>, p: T -> bool, w: T -> nat)
    requires Descending(xs, w)
    ensures Descending(Keep(xs, p), w)
  {
    if xs != [] {
      var init := xs[..|xs| - 1];
      KeepDescending(init, p, w);
      KeepMembers(init, p);
      var k := Keep(init, p);
      assert forall i :: 0 <= i < |k| ==> k[i] in k;
    }
  }

  // Filtering and picking out a weight commute.
  lemma {:induction false} KeepOfWeight<T>(xs: seq<T>, p: T -> bool, w: T -> nat, v: nat)
    ensures OfWeight(Keep(xs, p), w, v) == Keep(OfWeight(xs, w, v), p)
  {
    if xs != [] {
      var init, x := xs[..|xs| - 1], xs[|xs| - 1];
      assert init + [x] == xs;
      KeepOfWeight(init, p, w, v);
      OfWeightConcat(init, [x], w, v);
      OfWeightConcat(Keep(init, p), if p(x) then [x] else [], w, v);
      KeepConcat(OfWeight(init, w, v), OfWeight([x], w, v), p);
      assert Keep([x], p) == Keep([], p) + (if p(x) then [x] else []);
    }
  }

  // Members that leave do not disturb the order of those that stay.
  lemma SortKeep<T(!new)>(xs: seq<T>, p: T -> bool, w: T -> nat)
    ensures Sort(Keep(xs, p), w) == Keep(Sort(xs, w), p)
  {
    SortIsStable(xs, w);
    SortIsStable(Keep(xs, p), w);
    KeepDescending(Sort(xs, w), p, w);
    forall v ensures OfWeight(Sort(Keep(xs, p), w), w, v) == OfWeight(Keep(Sort(xs, w), p), w, v) {
      KeepOfWeight(Sort(xs, w), p, w, v);
      KeepOfWeight(xs, p, w, v);
    }
    StableSortIsUnique(Sort(Keep(xs, p), w), Keep(Sort(xs, w), p), w);
  }

  lemma {:induction false} KeepAll<T>(xs: seq<T>, p: T -> bool)
    requires forall i :: 0 <= i < |xs| ==> p(xs[i])
    ensures Keep(xs, p) == xs
  {
    if xs != [] {
      KeepAll(xs[..|xs| - 1], p);
    }
  }

  // Whoever leaves from outside the list, the list stays.
  lemma LeavingOutsideChangesNothing<T(!new)>(xs: seq<T>, p: T -> bool, w: T -> nat, k: nat)
    requires forall i :: 0 <= i < |Take(Sort(xs, w), k)| ==> p(Take(Sort(xs, w), k)[i])
    ensures Take(Sort(Keep(xs, p), w), k) == Take(Sort(xs, w), k)
  {
    SortKeep(xs, p, w);
    var s := Sort(xs, w);
    var front := Take(s, k);
    assert s == front + s[|front|..];
    KeepConcat(front, s[|front|..], p);
    KeepAll(front, p);
    if |s| <= k {
      assert s[|front|..] == [];
    }
  }

  ghost function Except<T>(x: T): (r: T -> bool)
  {
    y => y != x
  }

  lemma KeepNone<T>(x: T, p: T -> bool)
    requires !p(x)
    ensures Keep([x], p) == []
  {
    assert [x][..0] == [];
  }

  lemma KeepExcept<T>(s: seq<T>, x: T, j: nat)
    requires j < |s| && s[j] == x
    requires forall i :: 0 <= i < |s| && i != j ==> s[i] != x
    ensures Keep(s, Except(x)) == s[..j] + s[j + 1..]
  {
    hide Keep;
    var p, front, back := Except(x), s[..j], s[j + 1..];
    KeepConcat(front, [x] + back, p);
    KeepConcat([x], back, p);
    KeepAll(front, p);
    KeepAll(back, p);
    KeepNone(x, p);
    assert s == front + ([x] + back);
  }

  // One member that leaves from position j only lets the next one in.
  lemma LeavingInsidePromotesNext<T(!new)>(xs: seq<T>, x: T, w: T -> nat, k: nat, j: nat)
    requires j < |Sort(xs, w)| && j < k && Sort(xs, w)[j] == x
    requires forall i :: 0 <= i < |Sort(xs, w)| && i != j ==> Sort(xs, w)[i] != x
    ensures var s := Sort(xs, w);
            Take(Sort(Keep(xs, Except(x)), w), k) == s[..j] + s[j + 1..if |s| <= k then |s| else k + 1]
  {
    SortKeep(xs, Except(x), w);
    KeepExcept(Sort(xs, w), x, j);
  }
}
