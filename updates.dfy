/** An SQL `SET` list applied to one row, shared by the record stores. */
module Updates {

  /** The assignments applied in order, each to the row the previous one left. */
  function ApplyAll<R, A>(assign: (R, A) -> R, row: R, updates: seq<A>): R
    decreases |updates|
  {
    if updates == [] then row else ApplyAll(assign, assign(row, updates[0]), updates[1..])
  }

  /** Applying `a + b` is applying `a`, then `b`. */
  lemma {:induction false} ApplyAllAppend<R, A>(assign: (R, A) -> R, row: R, a: seq<A>, b: seq<A>)
    ensures ApplyAll(assign, row, a + b) == ApplyAll(assign, ApplyAll(assign, row, a), b)
    decreases |a|
  {
    if a == [] {
      assert a + b == b;
    } else {
      assert (a + b)[1..] == a[1..] + b;
      ApplyAllAppend(assign, assign(row, a[0]), a[1..], b);
    }
  }

  /** An empty list keeps the row; a single assignment is just that assignment. */
  lemma ApplyAtMostOne<R, A>(assign: (R, A) -> R, row: R, a: seq<A>)
    requires |a| <= 1
    ensures ApplyAll(assign, row, a) == if a == [] then row else assign(row, a[0])
  {
    if a != [] {
      assert ApplyAll(assign, assign(row, a[0]), a[1..]) == assign(row, a[0]);
    }
  }
}
