/** Loops that read a volatile register until a flag shows or the retries are used up, and then read it once more.

    The register is a stream: read number i returns r(i). The stream is arbitrary. */
module Polling {

  /** What a poll waits for: the masked bits read as value, or read as anything else. */
  datatype Wait = Wait(mask: bv32, value: bv32, equal: bool) {
    predicate Met(sample: bv32) {
      (sample & mask == value) == equal
    }
  }

  /** How many reads the loop makes from read number `at` on, with `left` retries. */
  function Polls(r: nat -> bv32, w: Wait, at: nat, left: nat): (n: nat)
    ensures 1 <= n <= left + 1
    decreases left
  {
    if w.Met(r(at)) || left == 0 then 1 else 1 + Polls(r, w, at + 1, left - 1)
  }

  /** The loop stops at the first read that meets the wait, or when the retries are used up, and nowhere else. */
  lemma {:induction false} PollsFirstHit(r: nat -> bv32, w: Wait, at: nat, left: nat, n: nat)
    requires 1 <= n <= left + 1
    ensures n == Polls(r, w, at, left) <==>
      && (forall i | at <= i < at + n - 1 :: !w.Met(r(i)))
      && (w.Met(r(at + n - 1)) || n == left + 1)
    decreases left
  {
    if w.Met(r(at)) || left == 0 {
      assert n > 1 ==> at <= at < at + n - 1;
    } else if n > 1 {
      PollsFirstHit(r, w, at + 1, left - 1, n - 1);
      assert at + 1 + (n - 1) - 1 == at + n - 1;
    }
  }

  /** The read after the loop decides. */
  ghost predicate Acknowledged(r: nat -> bv32, w: Wait, at: nat, left: nat) {
    w.Met(r(at + Polls(r, w, at, left)))
  }

  /** Hardware that starts to acknowledge at its read number k and then keeps it up is reported as a success exactly
      when k is within the retries: the read after the loop grants it one read more than the loop has. */
  lemma CleanAcknowledge(r: nat -> bv32, w: Wait, at: nat, left: nat, k: nat)
    requires forall i | at <= i < at + k :: !w.Met(r(i))
    requires forall i | at + k <= i :: w.Met(r(i))
    ensures Acknowledged(r, w, at, left) <==> k <= left + 1
  {
    hide Polls, Wait.Met;
    PollsFirstHit(r, w, at, left, Polls(r, w, at, left));
    PollsFirstHit(r, w, at, left, if k <= left then k + 1 else left + 1);
  }

  /** An acknowledge the loop has seen is forgotten if the next read no longer shows it. */
  lemma SeenButForgotten(r: nat -> bv32, w: Wait, at: nat, left: nat, k: nat)
    requires k <= left
    requires forall i | at <= i < at + k :: !w.Met(r(i))
    requires w.Met(r(at + k))
    ensures Acknowledged(r, w, at, left) <==> w.Met(r(at + k + 1))
  {
    hide Polls, Wait.Met;
    PollsFirstHit(r, w, at, left, k + 1);
  }
}
