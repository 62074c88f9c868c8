/** The modular step counter every skill demo advances on its interval:
    `s => (s + 1) % n`, from a state below `n`. */
module DemoCounter {

  /** One step of an `n`-state counter: `(s + 1) % n` for `s` below `n`,
      that is the successor, wrapping to 0 after `n - 1`. */
  function Next(s: nat, n: nat): (r: nat)
    requires s < n
    ensures r < n
    ensures s + 1 < n ==> r == s + 1
    ensures r == 0 <==> s == n - 1
  {
    if s + 1 == n then 0 else s + 1
  }

  /** The counter after `k` steps from `s`. */
  function Advance(s: nat, n: nat, k: nat): (r: nat)
    requires s < n
    ensures r < n
  {
    if k == 0 then s else Next(Advance(s, n, k - 1), n)
  }

  /** Steps compose: `a` steps then `b` steps are `a + b` steps. */
  lemma {:induction false} AdvanceCompose(s: nat, n: nat, a: nat, b: nat)
    requires s < n
    ensures Advance(s, n, a + b) == Advance(Advance(s, n, a), n, b)
  {
    if b > 0 {
      AdvanceCompose(s, n, a, b - 1);
    }
  }

  /** Before wrapping, `k` steps add `k`. */
  lemma {:induction false} AdvanceCounts(s: nat, n: nat, k: nat)
    requires s + k < n
    ensures Advance(s, n, k) == s + k
  {
    if k > 0 {
      AdvanceCounts(s, n, k - 1);
    }
  }

  /** `n` steps bring the counter back to where it started, and it wraps
      to 0 exactly after the step from `n - 1`. */
  lemma FullCycle(s: nat, n: nat)
    requires s < n
    ensures Advance(s, n, n - s) == 0
    ensures Advance(s, n, n) == s
  {
    AdvanceCounts(s, n, n - s - 1);
    AdvanceCounts(0, n, s);
    AdvanceCompose(s, n, n - s, s);
  }
}
