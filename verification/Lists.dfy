/** Linked lists of the program, as sequences without duplicates. */
module Lists {
  datatype Option<+T> = None | Some(value: T)

  ghost predicate NoDup<T>(xs: seq<T>) {
    forall i, j :: 0 <= i < j < |xs| ==> xs[i] != xs[j]
  }

  /** The list after unlinking x. */
  function Without<T(==)>(xs: seq<T>, x: T): (ys: seq<T>)
    ensures forall y :: y in xs && y != x ==> y in ys
    ensures forall y :: y in ys ==> y in xs && y != x
    ensures |ys| <= |xs|
    ensures x in xs ==> |ys| < |xs|
    ensures x !in xs ==> ys == xs
  {
    if xs == [] then []
    else if xs[0] == x then Without(xs[1..], x)
    else [xs[0]] + Without(xs[1..], x)
  }

  lemma {:induction false} WithoutNoDup<T>(xs: seq<T>, x: T)
    requires NoDup(xs)
    ensures NoDup(Without(xs, x))
    ensures x in xs ==> |Without(xs, x)| == |xs| - 1
  {
    if xs != [] {
      assert NoDup(xs[1..]);
      WithoutNoDup(xs[1..], x);
      assert xs[0] !in xs[1..];
    }
  }

  lemma AppendNoDup<T>(xs: seq<T>, x: T)
    requires NoDup(xs) && x !in xs
    ensures NoDup(xs + [x])
  {
  }

  /** Unlinking the head leaves the tail. */
  lemma WithoutHead<T>(xs: seq<T>)
    requires xs != [] && NoDup(xs)
    ensures Without(xs, xs[0]) == xs[1..]
  {
    assert xs[0] !in xs[1..];
  }

  function First<T>(xs: seq<T>): Option<T> {
    if xs == [] then None else Some(xs[0])
  }

  /** What follows x on the list. */
  function NextOf<T(==)>(xs: seq<T>, x: T): Option<T> {
    if xs == [] then None else if xs[0] == x then First(xs[1..]) else NextOf(xs[1..], x)
  }

  /** A walk that has got to x: what follows it. */
  lemma {:induction false} WalkOn<T>(done: seq<T>, rest: seq<T>)
    requires rest != [] && rest[0] !in done
    ensures NextOf(done + rest, rest[0]) == First(rest[1..])
  {
    if done == [] {
      assert done + rest == rest;
    } else {
      WalkOn(done[1..], rest);
      assert (done + rest)[1..] == done[1..] + rest;
    }
  }

  /** The list without x. */
  lemma {:induction false} WalkWithout<T>(done: seq<T>, rest: seq<T>)
    requires rest != [] && rest[0] !in done && rest[0] !in rest[1..]
    ensures Without(done + rest, rest[0]) == done + rest[1..]
  {
    if done == [] {
      assert done + rest == rest && done + rest[1..] == rest[1..];
    } else {
      WalkWithout(done[1..], rest);
      assert (done + rest)[1..] == done[1..] + rest;
      assert [done[0]] + (done[1..] + rest[1..]) == done + rest[1..];
    }
  }

  /** All the pieces, one after the other. */
  function Joined<T>(xs: seq<seq<T>>): seq<T> {
    if xs == [] then [] else xs[0] + Joined(xs[1..])
  }

  lemma {:induction false} JoinedAppend<T>(a: seq<seq<T>>, b: seq<seq<T>>)
    ensures Joined(a + b) == Joined(a) + Joined(b)
  {
    if a == [] {
      assert a + b == b;
    } else {
      assert (a + b)[1..] == a[1..] + b;
      JoinedAppend(a[1..], b);
      assert a[0] + (Joined(a[1..]) + Joined(b)) == a[0] + Joined(a[1..]) + Joined(b);
    }
  }

  lemma JoinedOne<T>(x: seq<T>)
    ensures Joined([x]) == x
  {
    assert [x][1..] == [];
  }
}
