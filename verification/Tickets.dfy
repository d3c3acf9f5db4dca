/** Arithmetic of queue tickets.

  A ticket is a logical queue index.  Its low bits select a slot, its high bits are
  the epoch, and a push and a pop of the same epoch take two consecutive turns on
  the slot.  The code keeps only the low 16 bits of a turn. */
module Tickets {

  datatype Kind = Push | Pop

  /** Number of distinct 16-bit versions. */
  const VERSIONS: nat := 0x1_0000

  /** Slot of a ticket: `index & _slot_mask` for a power-of-two capacity. */
  function Slot(cap: nat, t: nat): nat
    requires cap > 0
  {
    t % cap
  }

  /** The unbounded version a slot must show before ticket `t` may use it. */
  function Turn(cap: nat, k: Kind, t: nat): nat
    requires cap > 0
  {
    2 * (t / cap) + (if k.Push? then 0 else 1)
  }

  /** First ticket of the next round: `(index + _slot_mask + 1) & ~_slot_mask`. */
  function RoundEnd(cap: nat, t: nat): nat
    requires cap > 0
  {
    (t / cap + 1) * cap
  }

  lemma DivMod(cap: nat, t: nat)
    requires cap > 0
    ensures t == (t / cap) * cap + t % cap
    ensures t % cap < cap
  {
  }

  lemma MulStep(a: nat, b: nat, cap: nat)
    ensures a < b ==> a * cap + cap <= b * cap
  {
    if a < b {
      var d := b - a - 1;
      assert b * cap == a * cap + d * cap + cap;
      assert d * cap >= 0;
    }
  }

  /** A quotient and a remainder determine the number. */
  lemma DivModUnique(cap: nat, t: nat, q: nat, r: nat)
    requires cap > 0 && r < cap
    requires t == q * cap + r
    ensures t / cap == q && t % cap == r
  {
    DivMod(cap, t);
    MulStep(t / cap, q, cap);
    MulStep(q, t / cap, cap);
  }

  /** Different tickets never share a turn of a slot. */
  lemma TurnsDistinct(cap: nat, k: Kind, t: nat, k': Kind, t': nat)
    requires cap > 0
    requires Slot(cap, t) == Slot(cap, t') && Turn(cap, k, t) == Turn(cap, k', t')
    ensures k == k' && t == t'
  {
  }

  /** Inside one round the slot advances with the ticket and the turn is constant. */
  lemma SameRound(cap: nat, lo: nat, t: nat)
    requires cap > 0 && lo <= t < RoundEnd(cap, lo)
    ensures t / cap == lo / cap
    ensures Slot(cap, t) == Slot(cap, lo) + (t - lo)
    ensures forall k: Kind :: Turn(cap, k, t) == Turn(cap, k, lo)
  {
    DivMod(cap, lo);
    var r := lo % cap + (t - lo);
    assert RoundEnd(cap, lo) == (lo / cap) * cap + cap;
    DivModUnique(cap, t, lo / cap, r);
  }

  lemma RoundEndAhead(cap: nat, t: nat)
    requires cap > 0
    ensures t < RoundEnd(cap, t) <= t + cap
    ensures RoundEnd(cap, RoundEnd(cap, t)) == RoundEnd(cap, t) + cap
  {
    DivMod(cap, t);
    var e := t / cap + 1;
    assert e * cap == (t / cap) * cap + cap;
    DivModUnique(cap, e * cap, e, 0);
    assert (e + 1) * cap == e * cap + cap;
  }

  /** Tickets less than a round apart use different slots. */
  lemma SlotsApart(cap: nat, t: nat, u: nat)
    requires cap > 0 && t < u < t + cap
    ensures Slot(cap, t) != Slot(cap, u)
  {
    if Slot(cap, t) == Slot(cap, u) {
      DivMod(cap, t);
      DivMod(cap, u);
      MulStep(t / cap, u / cap, cap);
      MulStep(u / cap, t / cap, cap);
    }
  }

  /** The same slot one round later. */
  lemma NextRound(cap: nat, t: nat)
    requires cap > 0
    ensures Slot(cap, t + cap) == Slot(cap, t) && Turn(cap, Push, t + cap) == Turn(cap, Pop, t) + 1
    ensures Turn(cap, Pop, t) == Turn(cap, Push, t) + 1
  {
    DivMod(cap, t);
    assert (t / cap + 1) * cap == (t / cap) * cap + cap;
    DivModUnique(cap, t + cap, t / cap + 1, t % cap);
  }

  /** Advancing a 16-bit version advances the turn. */
  lemma NextVersion(turn: nat)
    ensures (turn % VERSIONS + 1) % VERSIONS == (turn + 1) % VERSIONS
  {
  }

  /** The ticket of the same slot `j` rounds earlier. */
  lemma RoundsBack(cap: nat, t: nat, j: nat)
    requires cap > 0 && j <= t / cap
    ensures j * cap <= t
    ensures Slot(cap, t - j * cap) == Slot(cap, t)
    ensures forall k: Kind :: Turn(cap, k, t - j * cap) == Turn(cap, k, t) - 2 * j
  {
    DivMod(cap, t);
    var q := t / cap - j;
    assert q * cap == (t / cap) * cap - j * cap;
    assert 0 <= q * cap;
    DivModUnique(cap, t - j * cap, q, t % cap);
  }

  /** A sequence of distinct numbers below `m` has at most `m` entries. */
  lemma {:induction false} Pigeonhole(xs: seq<int>, m: nat)
    requires forall a :: 0 <= a < |xs| ==> 0 <= xs[a] < m
    requires forall a, b :: 0 <= a < b < |xs| ==> xs[a] != xs[b]
    ensures |xs| <= m
  {
    assert |xs| > 0 ==> xs[0] < m;
    if m == 0 {
    } else if exists a :: 0 <= a < |xs| && xs[a] == m - 1 {
      var a :| 0 <= a < |xs| && xs[a] == m - 1;
      var ys := xs[..a] + xs[a + 1..];
      Pigeonhole(ys, m - 1);
    } else {
      Pigeonhole(xs, m - 1);
    }
  }
}
