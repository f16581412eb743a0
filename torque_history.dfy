/** The steering history `torque_history = deque(maxlen=100)` (automind.py:44, 106):
    appending to a full deque silently evicts its oldest entry. */
module TorqueHistory {

  /** The deque's `maxlen`. */
  const Capacity: nat := 100

  /** The last `n` entries of `s` (all of `s` when it is shorter). */
  function LastN(s: seq<real>, n: nat): (r: seq<real>)
    ensures |r| == if |s| <= n then |s| else n
  {
    if |s| <= n then s else s[|s| - n..]
  }

  /** `deque.append` on a deque holding at most `Capacity` entries. */
  function Push(h: seq<real>, x: real): (r: seq<real>)
    requires |h| <= Capacity
    ensures |r| <= Capacity
    ensures r == LastN(h + [x], Capacity)
    ensures r[|r| - 1] == x
  {
    if |h| < Capacity then h + [x] else h[1..] + [x]
  }

  /** Appending the values `xs` one after the other. */
  function PushAll(h: seq<real>, xs: seq<real>): (r: seq<real>)
    requires |h| <= Capacity
    ensures |r| <= Capacity
    decreases |xs|
  {
    if xs == [] then h else PushAll(Push(h, xs[0]), xs[1..])
  }

  /** Keeping the last `n` entries twice is keeping them once, across an append. */
  lemma LastNAppend(a: seq<real>, b: seq<real>, n: nat)
    ensures LastN(LastN(a, n) + b, n) == LastN(a + b, n)
  {
  }

  /** However many values are appended, the history holds exactly the most
      recent `Capacity` of everything appended so far, in insertion order. */
  lemma {:induction false} PushAllKeepsNewest(h: seq<real>, xs: seq<real>)
    requires |h| <= Capacity
    ensures PushAll(h, xs) == LastN(h + xs, Capacity)
    decreases |xs|
  {
    if xs == [] {
      assert h + xs == h;
    } else {
      PushAllKeepsNewest(Push(h, xs[0]), xs[1..]);
      LastNAppend(h + [xs[0]], xs[1..], Capacity);
      assert h + [xs[0]] + xs[1..] == h + xs;
    }
  }

  /** Appending 150 values to an empty history leaves exactly the last 100. */
  lemma HundredFiftyAppends(xs: seq<real>)
    requires |xs| == 150
    ensures PushAll([], xs) == xs[50..]
  {
    PushAllKeepsNewest([], xs);
    assert [] + xs == xs;
  }
}
