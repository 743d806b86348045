/** The Vault token and its renewal loop (internal/client/vault_client.go). */
module Lease {
  import opened Engine

  const MIN_RENEW_BEFORE: int := 10 * SECOND

  /** Vault's answer to a login or a renewal; a lease is granted in whole seconds. */
  datatype Grant = Refused | Granted(seconds: int, renewable: bool)

  /** What happens when the loop's timer fires: the renewal and, if that fails, the login. */
  datatype Tick = Tick(renewal: Grant, login: Grant)

  function RenewBefore(ttl: int): int {
    if GoDiv(ttl, 5) < MIN_RENEW_BEFORE then MIN_RENEW_BEFORE else GoDiv(ttl, 5)
  }

  function Wait(ttl: int, renewBefore: int): int {
    if ttl - renewBefore <= 0 then SECOND else ttl - renewBefore
  }

  /** What the client holds: the lease of its token, in nanoseconds, and whether it is renewable. */
  datatype Hold = Hold(ttl: int, renewable: bool)

  function HoldAfter(h: Hold, tick: Tick): Hold {
    match tick.renewal
    case Granted(seconds, renewable) => Hold(seconds * SECOND, renewable)
    case Refused =>
      match tick.login
      case Granted(seconds, renewable) => Hold(seconds * SECOND, renewable)
      case Refused => h
  }

  /** What the client holds after the first n timers. */
  function HoldAt(h: Hold, ticks: seq<Tick>, n: nat): Hold
    requires n <= |ticks|
  {
    if n == 0 then h else HoldAfter(HoldAt(h, ticks, n - 1), ticks[n-1])
  }

  /** The timer's renewal was granted, or was refused and the login after it granted. */
  predicate Grants(tick: Tick, seconds: int, renewable: bool) {
    tick.renewal == Granted(seconds, renewable)
    || (tick.renewal == Refused && tick.login == Granted(seconds, renewable))
  }

  predicate RefusesAll(tick: Tick) {
    tick.renewal.Refused? && tick.login.Refused?
  }

  class AppRoleClient {
    var ttl: int
    var renewable: bool

    /** A client whose first login was granted. */
    constructor (first: Grant)
      requires first.Granted?
      ensures ttl == first.seconds * SECOND && renewable == first.renewable
    {
      ttl, renewable := first.seconds * SECOND, first.renewable;
    }

    method Login(answer: Grant) returns (ok: bool)
      modifies this
      ensures ok <==> answer.Granted?
      ensures ttl == if ok then answer.seconds * SECOND else old(ttl)
      ensures renewable == if ok then answer.renewable else old(renewable)
    {
      if answer.Refused? {
        return false;
      }
      ttl := answer.seconds * SECOND;
      renewable := answer.renewable;
      return true;
    }

    method RenewSelf(answer: Grant) returns (ok: bool)
      modifies this
      ensures ok <==> answer.Granted?
      ensures ttl == if ok then answer.seconds * SECOND else old(ttl)
      ensures renewable == if ok then answer.renewable else old(renewable)
    {
      if answer.Refused? {
        return false;
      }
      ttl := answer.seconds * SECOND;
      renewable := answer.renewable;
      return true;
    }

    function State(): Hold
      reads this
    {
      Hold(ttl, renewable)
    }

    /** The renewal loop until it is cancelled, which is after the timers in `ticks`; `waits`
        are the delays it slept for.  The margin is fixed from the first lease. */
    method AutoRenew(ticks: seq<Tick>) returns (waits: seq<int>)
      modifies this
      ensures !old(renewable) ==> waits == [] && State() == old(State())
      ensures old(renewable) ==>
                && |waits| == |ticks|
                && (forall i :: 0 <= i < |waits| ==>
                      waits[i] == Wait(HoldAt(old(State()), ticks, i).ttl, RenewBefore(old(ttl))))
                && State() == HoldAt(old(State()), ticks, |ticks|)
    {
      waits := [];
      if !renewable {
        return;
      }
      var renewBefore := GoDiv(ttl, 5);
      if renewBefore < 10 * SECOND {
        renewBefore := 10 * SECOND;
      }
      var i := 0;
      while i < |ticks|
        invariant 0 <= i <= |ticks| && |waits| == i
        invariant renewBefore == RenewBefore(old(ttl))
        invariant State() == HoldAt(old(State()), ticks, i)
        invariant forall j :: 0 <= j < i ==> waits[j] == Wait(HoldAt(old(State()), ticks, j).ttl, renewBefore)
      {
        var wait := ttl - renewBefore;
        if wait <= 0 {
          wait := 1 * SECOND;
        }
        waits := waits + [wait];
        var ok := RenewSelf(ticks[i].renewal);
        if !ok {
          var _ := Login(ticks[i].login);
        }
        i := i + 1;
      }
    }
  }

  /** Whatever the timers before and after it met: from a timer that obtained a lease, by renewal
      or by the login after a refused renewal, until the next one that obtains one, the client
      holds exactly that lease. */
  lemma {:induction false} LastGrantStands(h: Hold, ticks: seq<Tick>, i: nat, n: nat, seconds: int, renewable: bool)
    requires i < n <= |ticks| && Grants(ticks[i], seconds, renewable)
    requires forall j :: i < j < n ==> RefusesAll(ticks[j])
    ensures HoldAt(h, ticks, n) == Hold(seconds * 1_000_000_000, renewable)
    decreases n
  {
    if i < n - 1 {
      LastGrantStands(h, ticks, i, n - 1, seconds, renewable);
      assert RefusesAll(ticks[n-1]);
    }
  }

  /** ... and until the first one it holds the lease it started with. */
  lemma {:induction false} FirstHoldStands(h: Hold, ticks: seq<Tick>, n: nat)
    requires n <= |ticks| && forall j :: 0 <= j < n ==> RefusesAll(ticks[j])
    ensures HoldAt(h, ticks, n) == h
  {
    if n > 0 {
      FirstHoldStands(h, ticks, n - 1);
      assert RefusesAll(ticks[n-1]);
    }
  }

  /** The margin is a fifth of the first lease and at least 10 s; the loop waits for the lease
      less the margin, or for one second when that leaves nothing. */
  lemma WaitIs(first: int, ttl: int)
    ensures var margin := RenewBefore(first);
            && (margin == 10_000_000_000 || 5 * margin <= first < 5 * margin + 5)
            && margin >= 10_000_000_000 && first < 5 * margin + 5
            && Wait(ttl, margin) == if ttl > margin then ttl - margin else 1_000_000_000
  {
  }

  /** The loop never waits for as long as its lease lasts, and leaves the whole margin when the
      lease exceeds it. */
  lemma WaitWithinLease(first: int, ttl: int)
    ensures ttl > SECOND ==> 0 < Wait(ttl, RenewBefore(first)) < ttl
    ensures ttl > RenewBefore(first) ==>
              ttl - Wait(ttl, RenewBefore(first)) == RenewBefore(first) >= 10 * SECOND
  {
  }

  /** Renewal at four fifths of the lease, to the nanosecond, for a lease of at least 50 s. */
  lemma WaitIsFourFifths(ttl: int)
    requires ttl >= 50 * SECOND
    ensures var wait := Wait(ttl, RenewBefore(ttl));
            5 * (wait - 1) < 4 * ttl <= 5 * wait
  {
    assert 5 * (ttl / 5) <= ttl < 5 * (ttl / 5) + 5;
  }

  /** When the k-th timer fires, if the first lease started at `start`. */
  function FiresAt(start: int, h: Hold, ticks: seq<Tick>, k: nat): int
    requires k <= |ticks|
  {
    if k == 0 then start
    else FiresAt(start, h, ticks, k - 1) + Wait(HoldAt(h, ticks, k - 1).ttl, RenewBefore(h.ttl))
  }

  /** Every timer gets a lease of more than a second, from the renewal or the login. */
  predicate Succeeds(tick: Tick) {
    if tick.renewal.Granted? then tick.renewal.seconds > 1
    else tick.login.Granted? && tick.login.seconds > 1
  }

  lemma HoldsWhatWasGranted(h: Hold, ticks: seq<Tick>, n: nat)
    requires 0 < n <= |ticks| && Succeeds(ticks[n-1])
    ensures HoldAt(h, ticks, n).ttl == Lasts(ticks[n-1]) > 1_000_000_000
  {
    var seconds, renewable := if ticks[n-1].renewal.Granted? then ticks[n-1].renewal.seconds
                              else ticks[n-1].login.seconds,
                              if ticks[n-1].renewal.Granted? then ticks[n-1].renewal.renewable
                              else ticks[n-1].login.renewable;
    LastGrantStands(h, ticks, n - 1, n, seconds, renewable);
  }

  /** How long the lease lasts that a timer obtains. */
  function Lasts(tick: Tick): int {
    if tick.renewal.Granted? then tick.renewal.seconds * 1_000_000_000
    else if tick.login.Granted? then tick.login.seconds * 1_000_000_000
    else 0
  }

  /** The lease obtained by the k-th timer, or at the start for k = 0, is in force at `now`. */
  predicate Covers(start: int, h: Hold, ticks: seq<Tick>, k: nat, now: int)
    requires k <= |ticks|
  {
    var obtained := FiresAt(start, h, ticks, k);
    obtained <= now < obtained + if k == 0 then h.ttl else Lasts(ticks[k-1])
  }

  /** If every timer obtains a lease, by renewal or login, some granted lease is in force at
      every instant up to the last timer. */
  lemma {:induction false} LeaseCoversEveryInstant(start: int, h: Hold, ticks: seq<Tick>, n: nat, now: int)
    requires h.ttl > 1_000_000_000 && n <= |ticks| && forall i :: 0 <= i < |ticks| ==> Succeeds(ticks[i])
    requires start <= now <= FiresAt(start, h, ticks, n)
    ensures exists k: nat :: k <= n && Covers(start, h, ticks, k, now)
    decreases n
  {
    if n > 0 {
      HoldsWhatWasGranted(h, ticks, n);
    }
    if now == FiresAt(start, h, ticks, n) {
      assert Covers(start, h, ticks, n, now);
    } else if now < FiresAt(start, h, ticks, n - 1) {
      LeaseCoversEveryInstant(start, h, ticks, n - 1, now);
    } else {
      if n > 1 {
        HoldsWhatWasGranted(h, ticks, n - 1);
      }
      WaitWithinLease(h.ttl, HoldAt(h, ticks, n - 1).ttl);
      assert Covers(start, h, ticks, n - 1, now);
    }
  }
}
