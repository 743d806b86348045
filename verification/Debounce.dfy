/** The 20-second grid on which a retry may write the status (Next, reconciler.go:257-275). */
module Debounce {
  import opened Api
  import opened Engine

  /** The write of a retry in place is skipped exactly when the clock has not gone back behind
      the phase's start and is not on its grid of 20 seconds; a retry in the first phase and any
      other move are never skipped. */
  lemma SkipsIff(st: Status, now: int, m: Move)
    ensures Skips(st, now, m) <==>
              && m.requeue && st.phase == m.next && st.phase != Initial && st.phaseStartTime.Some?
              && now >= st.phaseStartTime.value
              && (now - st.phaseStartTime.value) % 20_000_000_000 != 0
  {
  }

  /** A skipped retry changes nothing in the store and asks to be woken at the next point of
      the grid, where the same retry is not skipped. */
  lemma SkippedRetryWakesOnGrid(o: Object, mem: Status, m: Move, env: Env, calls: seq<Exchange>)
    requires Skips(mem, env.now, m)
    ensures var out := Next(o, mem, m, env, calls);
            var wake := env.now + out.ret.after;
            && out.post == Some(o) && out.write == Debounced
            && !out.ret.failed && 0 < out.ret.after < 20_000_000_000
            && (wake - mem.phaseStartTime.value) % 20_000_000_000 == 0
            && wake - mem.phaseStartTime.value > 0
            && !Skips(mem, wake, m)
  {
    SkipsIff(mem, env.now, m);
    var elapsed := env.now - mem.phaseStartTime.value;
    var k := elapsed / REQUEUE_AFTER + 1;
    var wake := env.now + TimeToNextInterval(elapsed);
    assert wake - mem.phaseStartTime.value == k * REQUEUE_AFTER;
    GridPoint(k);
    SkipsIff(mem, wake, m);
  }

  lemma GridPoint(k: nat)
    ensures (k * REQUEUE_AFTER) % REQUEUE_AFTER == 0
  {
    assert (k * REQUEUE_AFTER) / REQUEUE_AFTER == k;
  }
}
