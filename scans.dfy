/** Left-to-right scans over a sequence: the value of the last element that
    yields one (a loop that keeps overwriting a variable), and the existence
    of an element yielding a given value. */
module Scans {
  import opened Wrappers

  /** A scan that never breaks: each element that yields a value overwrites
      the previous one, so the last one wins. */
  function LastFound<S, T>(xs: seq<S>, find: S -> Option<T>, none: T): T
    decreases |xs|
  {
    if xs == [] then none
    else match find(xs[|xs| - 1])
      case Some(v) => v
      case None => LastFound(xs[..|xs| - 1], find, none)
  }

  /** With no element yielding a value the scan gives the default. */
  lemma {:induction false} LastFoundNone<S, T>(xs: seq<S>, find: S -> Option<T>, none: T)
    requires forall i :: 0 <= i < |xs| ==> find(xs[i]).None?
    ensures LastFound(xs, find, none) == none
    decreases |xs|
  {
    if xs != [] {
      var init := xs[..|xs| - 1];
      assert forall i :: 0 <= i < |init| ==> init[i] == xs[i];
      LastFoundNone(init, find, none);
    }
  }

  /** The scan gives the value of an element no later element overrides. */
  lemma {:induction false} LastFoundAt<S, T>(xs: seq<S>, find: S -> Option<T>, none: T, i: nat)
    requires i < |xs| && find(xs[i]).Some?
    requires forall j :: i < j < |xs| ==> find(xs[j]).None?
    ensures LastFound(xs, find, none) == find(xs[i]).value
    decreases |xs|
  {
    if i < |xs| - 1 {
      var init := xs[..|xs| - 1];
      assert find(xs[|xs| - 1]).None?;
      assert LastFound(xs, find, none) == LastFound(init, find, none);
      assert init[i] == xs[i];
      assert forall j :: i < j < |init| ==> init[j] == xs[j];
      LastFoundAt(init, find, none, i);
    }
  }

  /** The last-wins scan yields the value of the last element that has one,
      or the default when none has. */
  lemma LastFoundIsLastMatch<S, T>(xs: seq<S>, find: S -> Option<T>, none: T)
    ensures (forall i :: 0 <= i < |xs| ==> find(xs[i]).None?) ==> LastFound(xs, find, none) == none
    ensures forall i :: 0 <= i < |xs| && find(xs[i]).Some? &&
                        (forall j :: i < j < |xs| ==> find(xs[j]).None?) ==>
                          LastFound(xs, find, none) == find(xs[i]).value
  {
    if forall i :: 0 <= i < |xs| ==> find(xs[i]).None? {
      LastFoundNone(xs, find, none);
    }
    forall i | 0 <= i < |xs| && find(xs[i]).Some? && (forall j :: i < j < |xs| ==> find(xs[j]).None?)
      ensures LastFound(xs, find, none) == find(xs[i]).value
    {
      LastFoundAt(xs, find, none, i);
    }
  }

  /** Some element yields `v`. */
  ghost predicate Found<S, T>(xs: seq<S>, find: S -> Option<T>, v: T) {
    exists i :: 0 <= i < |xs| && find(xs[i]) == Some(v)
  }

  /** Where no element yields a value, no value is found. */
  lemma NothingFound<S, T>(xs: seq<S>, find: S -> Option<T>, v: T)
    requires forall i :: 0 <= i < |xs| ==> find(xs[i]).None?
    ensures !Found(xs, find, v)
  {
  }

  lemma FoundSnoc<S, T>(xs: seq<S>, find: S -> Option<T>, v: T)
    requires xs != []
    ensures Found(xs, find, v) <==>
      Found(xs[..|xs| - 1], find, v) || find(xs[|xs| - 1]) == Some(v)
  {
    var init := xs[..|xs| - 1];
    if Found(xs, find, v) {
      var i :| 0 <= i < |xs| && find(xs[i]) == Some(v);
      if i < |init| {
        assert init[i] == xs[i];
      }
    }
    if Found(init, find, v) {
      var i :| 0 <= i < |init| && find(init[i]) == Some(v);
      assert xs[i] == init[i];
    }
  }

  /** A scan that stops at the first element yielding a value: its index. */
  function FirstFound<S, T>(xs: seq<S>, find: S -> Option<T>): (r: Option<nat>)
    ensures r.Some? ==> r.value < |xs| && find(xs[r.value]).Some?
    ensures r.Some? ==> forall j :: 0 <= j < r.value ==> find(xs[j]).None?
    ensures r.None? ==> forall j :: 0 <= j < |xs| ==> find(xs[j]).None?
    decreases |xs|
  {
    if xs == [] then None
    else if find(xs[0]).Some? then Some(0)
    else match FirstFound(xs[1..], find)
      case Some(k) => Some(k + 1)
      case None => None
  }

  /** The last `n` elements of `s` (all of them when there are fewer): what a
      bounded deque keeps, and `list(...)[-n:]`. */
  function Newest<T>(s: seq<T>, n: nat): (r: seq<T>)
    ensures |r| == if |s| < n then |s| else n
    ensures r == s[|s| - |r|..]
  {
    if |s| <= n then s else s[|s| - n..]
  }

  /** Keeping the newest after each append is keeping the newest of everything. */
  lemma NewestAppend<T>(s: seq<T>, x: T, n: nat)
    ensures Newest(Newest(s, n) + [x], n) == Newest(s + [x], n)
  {
    if |s| > n && n > 0 {
      var t := s[|s| - n..];
      assert (t + [x])[1..] == (s + [x])[|s| + 1 - n..];
    }
  }
}
