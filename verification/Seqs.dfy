/** Sequence vocabulary shared by the queue, room and stream models. */
module Seqs {

  /** No value occurs twice. */
  ghost predicate NoDup<T>(xs: seq<T>) {
    forall i, j :: 0 <= i < j < |xs| ==> xs[i] != xs[j]
  }

  function Elems<T(==,!new)>(xs: seq<T>): (r: set<T>)
    ensures forall x :: x in r <==> x in xs
  {
    set x | x in xs
  }

  lemma ElemsMore<T(!new)>(xs: seq<T>, x: T)
    ensures Elems(xs + [x]) == Elems(xs) + {x}
  {
  }

  /** `xs` with every member of `gone` left out, order kept. */
  function Without<T(==,!new)>(xs: seq<T>, gone: set<T>): (ys: seq<T>)
    ensures |ys| <= |xs|
    ensures forall x :: x in ys <==> x in xs && x !in gone
  {
    if xs == [] then []
    else if xs[0] in gone then Without(xs[1..], gone)
    else [xs[0]] + Without(xs[1..], gone)
  }

  /** `xs` with the first occurrence of `x` removed, as `deque::erase(find(...))` does. */
  function RemoveFirst<T(==,!new)>(xs: seq<T>, x: T): (ys: seq<T>) {
    if xs == [] then []
    else if xs[0] == x then xs[1..]
    else [xs[0]] + RemoveFirst(xs[1..], x)
  }

  function Flatten<T>(xss: seq<seq<T>>): seq<T> {
    if xss == [] then [] else xss[0] + Flatten(xss[1..])
  }

  function Reverse<T>(xs: seq<T>): (ys: seq<T>)
    ensures |ys| == |xs|
  {
    if xs == [] then [] else Reverse(xs[1..]) + [xs[0]]
  }

  lemma {:induction false} WithoutNoDup<T(!new)>(xs: seq<T>, gone: set<T>)
    requires NoDup(xs)
    ensures NoDup(Without(xs, gone))
  {
    if xs != [] {
      assert NoDup(xs[1..]);
      WithoutNoDup(xs[1..], gone);
      assert xs[0] !in xs[1..];
    }
  }

  lemma {:induction false} WithoutKeepsAll<T(!new)>(xs: seq<T>, gone: set<T>)
    requires forall x :: x in xs ==> x !in gone
    ensures Without(xs, gone) == xs
  {
    if xs != [] {
      WithoutKeepsAll(xs[1..], gone);
    }
  }

  lemma {:induction false} WithoutTwice<T(!new)>(xs: seq<T>, a: set<T>, b: set<T>)
    ensures Without(Without(xs, a), b) == Without(xs, a + b)
  {
    if xs != [] {
      WithoutTwice(xs[1..], a, b);
      if xs[0] !in a {
        assert Without(xs, a)[1..] == Without(xs[1..], a);
      }
    }
  }

  lemma {:induction false} RemoveFirstIsWithout<T(!new)>(xs: seq<T>, x: T)
    requires NoDup(xs)
    ensures RemoveFirst(xs, x) == Without(xs, {x})
  {
    if xs != [] {
      assert NoDup(xs[1..]);
      if xs[0] == x {
        WithoutKeepsAll(xs[1..], {x});
      } else {
        RemoveFirstIsWithout(xs[1..], x);
      }
    }
  }

  lemma NoDupConcat<T(!new)>(xs: seq<T>, ys: seq<T>)
    requires NoDup(xs) && NoDup(ys)
    requires forall x :: x in xs ==> x !in ys
    ensures NoDup(xs + ys)
  {
    var zs := xs + ys;
    forall i, j | 0 <= i < j < |zs| ensures zs[i] != zs[j] {
      if i < |xs| <= j {
        assert zs[i] in xs && zs[j] in ys;
      }
    }
  }

  lemma {:induction false} WithoutConcat<T(!new)>(xs: seq<T>, ys: seq<T>, gone: set<T>)
    ensures Without(xs + ys, gone) == Without(xs, gone) + Without(ys, gone)
  {
    if xs == [] {
      assert xs + ys == ys;
    } else {
      assert (xs + ys)[1..] == xs[1..] + ys;
      WithoutConcat(xs[1..], ys, gone);
    }
  }
}
