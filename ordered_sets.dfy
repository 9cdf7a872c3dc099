/**
 * A JavaScript `Set` as a sequence without duplicates, kept in insertion
 * order (the order `forEach` visits it in).
 */
module OrderedSets {

  ghost predicate NoDup<T>(xs: seq<T>)
  {
    forall i, j :: 0 <= i < j < |xs| ==> xs[i] != xs[j]
  }

  /** `set.add(x)`: appends `x` unless it is already a member. */
  function Add<T(==,!new)>(xs: seq<T>, x: T): (r: seq<T>)
    ensures forall y :: y in r <==> y in xs || y == x
    ensures NoDup(xs) ==> NoDup(r)
    ensures x in xs ==> r == xs
    ensures xs <= r && |r| <= |xs| + 1
  {
    if x in xs then xs else xs + [x]
  }

  /** `set.delete(x)`: removes `x`, keeping the others in their order. */
  function Delete<T(==,!new)>(xs: seq<T>, x: T): (r: seq<T>)
    ensures forall y :: y in r <==> y in xs && y != x
    ensures NoDup(xs) ==> NoDup(r)
    ensures x !in xs ==> r == xs
    ensures NoDup(xs) && x in xs ==> |r| == |xs| - 1
  {
    if xs == [] then []
    else if xs[0] == x then Delete(xs[1..], x)
    else
      var rest := Delete(xs[1..], x);
      assert NoDup(xs) ==> xs[0] !in xs[1..] && NoDup(xs[1..]);
      [xs[0]] + rest
  }

  lemma {:induction false} DeleteAppend<T(!new)>(xs: seq<T>, ys: seq<T>, x: T)
    ensures Delete(xs + ys, x) == Delete(xs, x) + Delete(ys, x)
  {
    if xs != [] {
      assert (xs + ys)[1..] == xs[1..] + ys;
      DeleteAppend(xs[1..], ys, x);
    } else {
      assert xs + ys == ys;
    }
  }

  /**
   * Registering a new member and then calling the function returned for it
   * restores the set exactly, order included.
   */
  lemma DeleteUndoesAdd<T(!new)>(xs: seq<T>, x: T)
    requires x !in xs
    ensures Delete(Add(xs, x), x) == xs
  {
    DeleteAppend(xs, [x], x);
    assert Delete([x], x) == Delete([x][1..], x);
    assert xs + [] == xs;
  }

  /** `set.forEach(t => t(m))`: one call per member, in iteration order. */
  function Broadcast<T, M>(targets: seq<T>, m: M): (r: seq<(T, M)>)
    ensures |r| == |targets|
  {
    if targets == [] then []
    else Broadcast(targets[..|targets| - 1], m) + [(targets[|targets| - 1], m)]
  }

  /**
   * Fan-out over a set reaches each member exactly once and nobody else.
   */
  lemma {:induction false} BroadcastOnce<T, M>(targets: seq<T>, m: M, t: T)
    requires NoDup(targets)
    ensures multiset(Broadcast(targets, m))[(t, m)] == if t in targets then 1 else 0
  {
    if targets != [] {
      var n := |targets| - 1;
      var init := targets[..n];
      assert targets == init + [targets[n]];
      assert NoDup(init);
      BroadcastOnce(init, m, t);
      assert targets[n] !in init;
    }
  }
}
