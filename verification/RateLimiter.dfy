/** The login rate limiter of the API process: at most five admitted attempts per client address in sixty seconds,
    kept as one pruned list of times per address. */
module RateLimiter {
  import opened Options

  const LOGIN_MAX: nat := 5
  const LOGIN_WIN: real := 60.0
  const LOGIN_PATH := "/auth/jwt/login"
  const UNKNOWN_CLIENT := "unknown"

  type Store = map<string, seq<real>>

  datatype LoginAttempt = LoginAttempt(ip: string, at: real)

  /** The times still inside the window at `now`. */
  function Recent(times: seq<real>, now: real): (r: seq<real>)
    ensures |r| <= |times|
    ensures forall t :: t in r <==> t in times && now - t < LOGIN_WIN
  {
    if times == [] then []
    else
      var rest := Recent(times[..|times| - 1], now);
      var last := times[|times| - 1];
      if now - last < LOGIN_WIN then rest + [last] else rest
  }

  /** A missing address reads as an empty list. */
  function Lookup(store: Store, ip: string): seq<real> {
    if ip in store then store[ip] else []
  }

  predicate Admits(store: Store, a: LoginAttempt) {
    |Recent(Lookup(store, a.ip), a.at)| < LOGIN_MAX
  }

  function Next(store: Store, a: LoginAttempt): Store {
    var recent := Recent(Lookup(store, a.ip), a.at);
    store[a.ip := if |recent| < LOGIN_MAX then recent + [a.at] else recent]
  }

  /** The middleware. */
  class LoginLimiter {
    var store: Store

    constructor ()
      ensures store == map[]
    {
      store := map[];
    }

    /** Handles one request and says whether it is passed on. Only the login path is counted. */
    method Handle(path: string, client: Option<string>, now: real) returns (forwarded: bool)
      modifies this
      ensures path != "/auth/jwt/login" ==> forwarded && store == old(store)
      ensures path == "/auth/jwt/login" ==>
                var a := LoginAttempt(if client.Some? then client.value else "unknown", now);
                && (forwarded <==> Admits(old(store), a))
                && store == Next(old(store), a)
                && forall ip :: ip != a.ip ==> Lookup(store, ip) == Lookup(old(store), ip)
    {
      if path == LOGIN_PATH {
        var ip := if client.Some? then client.value else UNKNOWN_CLIENT;
        if ip !in store {
          store := store[ip := []];
        }
        var recent := Recent(store[ip], now);
        store := store[ip := recent];
        if |recent| >= LOGIN_MAX {
          return false;
        }
        store := store[ip := store[ip] + [now]];
      }
      return true;
    }
  }

  /* ---- runs ---- */

  ghost predicate Clocked(run: seq<LoginAttempt>) {
    forall i, j :: 0 <= i < j < |run| ==> run[i].at <= run[j].at
  }

  /** The store after a run from an empty store. */
  function StoreAfter(run: seq<LoginAttempt>): Store {
    if run == [] then map[] else Next(StoreAfter(run[..|run| - 1]), run[|run| - 1])
  }

  /** The decision on attempt `i` of a run. */
  predicate Admitted(run: seq<LoginAttempt>, i: nat)
    requires i < |run|
  {
    Admits(StoreAfter(run[..i]), run[i])
  }

  /** The full history the store forgets: the times of all admitted attempts of one address, in order. */
  function History(run: seq<LoginAttempt>, ip: string): seq<real> {
    if run == [] then []
    else
      var before := History(run[..|run| - 1], ip);
      var last := run[|run| - 1];
      if last.ip == ip && Admits(StoreAfter(run[..|run| - 1]), last) then before + [last.at] else before
  }

  predicate Sorted(times: seq<real>) {
    forall i, j :: 0 <= i < j < |times| ==> times[i] <= times[j]
  }

  lemma SortedAppend(times: seq<real>, t: real)
    requires Sorted(times) && forall x :: x in times ==> x <= t
    ensures Sorted(times + [t])
  {
    assert forall i :: 0 <= i < |times| ==> times[i] in times;
  }

  lemma RecentAppend(times: seq<real>, t: real, now: real)
    ensures Recent(times + [t], now) == if now - t < LOGIN_WIN then Recent(times, now) + [t] else Recent(times, now)
  {
  }

  /** Pruning twice is pruning at the later time. */
  lemma {:induction false} RecentTwice(times: seq<real>, earlier: real, now: real)
    requires earlier <= now
    ensures Recent(Recent(times, earlier), now) == Recent(times, now)
  {
    if times != [] {
      var front, last := times[..|times| - 1], times[|times| - 1];
      RecentTwice(front, earlier, now);
      if earlier - last < LOGIN_WIN {
        RecentAppend(Recent(front, earlier), last, now);
      }
    }
  }

  lemma {:induction false} HistoryBefore(run: seq<LoginAttempt>, ip: string, now: real)
    requires Clocked(run) && (run != [] ==> run[|run| - 1].at <= now)
    ensures Sorted(History(run, ip))
    ensures forall t :: t in History(run, ip) ==> t <= now
  {
    if run != [] {
      HistoryBefore(run[..|run| - 1], ip, run[|run| - 1].at);
      SortedAppend(History(run[..|run| - 1], ip), run[|run| - 1].at);
    }
  }

  /** The pruned list and the full history have the same recent part, from the last attempt on. */
  lemma {:induction false} StoreRefinesHistory(run: seq<LoginAttempt>, ip: string, now: real)
    requires Clocked(run) && (run != [] ==> run[|run| - 1].at <= now)
    ensures Recent(Lookup(StoreAfter(run), ip), now) == Recent(History(run, ip), now)
  {
    if run != [] {
      var front, last := run[..|run| - 1], run[|run| - 1];
      var kept := Lookup(StoreAfter(front), last.ip);
      StoreRefinesHistory(front, ip, now);
      if last.ip == ip {
        RecentTwice(kept, last.at, now);
        RecentAppend(Recent(kept, last.at), last.at, now);
        RecentAppend(History(front, ip), last.at, now);
      }
    }
  }

  /** After an attempt, admitted or not, the list of its address holds nothing from before the window. */
  lemma AttemptPrunes(store: Store, a: LoginAttempt)
    ensures a.ip in Next(store, a)
    ensures forall t :: t in Next(store, a)[a.ip] ==> a.at - t < 60.0
    ensures forall t :: t in Lookup(store, a.ip) && a.at - t < 60.0 ==> t in Next(store, a)[a.ip]
    ensures Admits(store, a) ==> a.at in Next(store, a)[a.ip]
  {
  }

  /** How many times lie less than sixty seconds back. */
  function CountRecent(times: seq<real>, now: real): nat {
    if times == [] then 0
    else CountRecent(times[..|times| - 1], now) + if now - times[|times| - 1] < 60.0 then 1 else 0
  }

  lemma {:induction false} RecentCount(times: seq<real>, now: real)
    ensures |Recent(times, now)| == CountRecent(times, now)
  {
    if times != [] {
      RecentCount(times[..|times| - 1], now);
    }
  }

  lemma AdmittedByHistory(run: seq<LoginAttempt>, i: nat)
    requires Clocked(run) && i < |run|
    ensures Admitted(run, i) <==> |Recent(History(run[..i], run[i].ip), run[i].at)| < LOGIN_MAX
  {
    StoreRefinesHistory(run[..i], run[i].ip, run[i].at);
  }

  /** An attempt is admitted exactly when fewer than five earlier admitted attempts of its address lie less than
      sixty seconds back. */
  lemma AdmissionRule(run: seq<LoginAttempt>, i: nat)
    requires Clocked(run) && i < |run|
    ensures Admitted(run, i) <==> CountRecent(History(run[..i], run[i].ip), run[i].at) < 5
  {
    AdmittedByHistory(run, i);
    RecentCount(History(run[..i], run[i].ip), run[i].at);
  }

  lemma {:induction false} RecentSorted(times: seq<real>, now: real)
    requires Sorted(times)
    ensures Sorted(Recent(times, now))
  {
    if times != [] {
      var front, last := times[..|times| - 1], times[|times| - 1];
      RecentSorted(front, now);
      SortedAppend(Recent(front, now), last);
    }
  }

  /** Every stored list is sorted, not in the future, and never longer than the limit; an address that made no
      attempt has none. */
  lemma {:induction false} StoreInvariant(run: seq<LoginAttempt>, ip: string, now: real)
    requires Clocked(run) && (run != [] ==> run[|run| - 1].at <= now)
    ensures Sorted(Lookup(StoreAfter(run), ip)) && |Lookup(StoreAfter(run), ip)| <= 5
    ensures forall t :: t in Lookup(StoreAfter(run), ip) ==> t <= now
    ensures (forall i :: 0 <= i < |run| ==> run[i].ip != ip) ==> ip !in StoreAfter(run)
  {
    if run != [] {
      var front, last := run[..|run| - 1], run[|run| - 1];
      StoreInvariant(front, ip, last.at);
      RecentSorted(Lookup(StoreAfter(front), ip), last.at);
      SortedAppend(Recent(Lookup(StoreAfter(front), ip), last.at), last.at);
    }
  }

  /* ---- the window bound ---- */

  /** How many of `times` lie in the half-open interval from `lo` to `hi`. */
  function CountIn(times: seq<real>, lo: real, hi: real): nat {
    if times == [] then 0
    else CountIn(times[..|times| - 1], lo, hi) + if lo <= times[|times| - 1] < hi then 1 else 0
  }

  lemma {:induction false} CountWithinRecent(times: seq<real>, lo: real, hi: real, now: real)
    requires hi <= lo + LOGIN_WIN && now < hi
    ensures CountIn(times, lo, hi) <= |Recent(times, now)|
  {
    if times != [] {
      CountWithinRecent(times[..|times| - 1], lo, hi, now);
    }
  }

  lemma {:induction false} CountSplits(times: seq<real>, lo: real, mid: real, hi: real)
    requires lo <= mid <= hi
    ensures CountIn(times, lo, hi) == CountIn(times, lo, mid) + CountIn(times, mid, hi)
  {
    if times != [] {
      CountSplits(times[..|times| - 1], lo, mid, hi);
    }
  }

  /** One more admitted time: if it lies in the window, fewer than five others do. */
  lemma WindowAppend(before: seq<real>, at: real, lo: real)
    requires CountIn(before, lo, lo + LOGIN_WIN) <= LOGIN_MAX && |Recent(before, at)| < LOGIN_MAX
    ensures CountIn(before + [at], lo, lo + LOGIN_WIN) <= LOGIN_MAX
  {
    assert (before + [at])[..|before|] == before;
    if at < lo + LOGIN_WIN {
      CountWithinRecent(before, lo, lo + LOGIN_WIN, at);
    }
  }

  /** No half-open window of sixty seconds holds more than five admitted attempts of one address. */
  lemma {:induction false} WindowBound(run: seq<LoginAttempt>, ip: string, lo: real)
    requires Clocked(run)
    ensures CountIn(History(run, ip), lo, lo + 60.0) <= 5
  {
    if run != [] {
      var front, last := run[..|run| - 1], run[|run| - 1];
      WindowBound(front, ip, lo);
      if last.ip == ip && Admits(StoreAfter(front), last) {
        AdmittedByHistory(run, |front|);
        WindowAppend(History(front, ip), last.at, lo);
      }
    }
  }

  /** Over `k` consecutive windows the bound is `5 * k`. */
  lemma {:induction false} IntervalBound(run: seq<LoginAttempt>, ip: string, lo: real, k: nat)
    requires Clocked(run)
    ensures CountIn(History(run, ip), lo, lo + 60.0 * k as real) <= 5 * k
  {
    var times := History(run, ip);
    if k == 0 {
      EmptyInterval(times, lo);
    } else {
      var mid := lo + LOGIN_WIN * (k - 1) as real;
      IntervalBound(run, ip, lo, k - 1);
      WindowBound(run, ip, mid);
      CountSplits(times, lo, mid, mid + LOGIN_WIN);
    }
  }

  lemma {:induction false} EmptyInterval(times: seq<real>, lo: real)
    ensures CountIn(times, lo, lo) == 0
  {
    if times != [] {
      EmptyInterval(times[..|times| - 1], lo);
    }
  }

  /* ---- rejected attempts leave no trace ---- */

  /** The attempts that a mask keeps. */
  function Kept(run: seq<LoginAttempt>, mask: seq<bool>): seq<LoginAttempt>
    requires |mask| == |run|
  {
    if run == [] then []
    else
      var front := Kept(run[..|run| - 1], mask[..|run| - 1]);
      if mask[|run| - 1] then front + [run[|run| - 1]] else front
  }

  /** A mask that only drops attempts that cannot matter to `ip`: rejected ones, and those of other addresses. */
  ghost predicate DropsIrrelevant(run: seq<LoginAttempt>, mask: seq<bool>, ip: string)
    requires |mask| == |run|
  {
    forall i :: 0 <= i < |run| && !mask[i] ==> run[i].ip != ip || !Admitted(run, i)
  }

  /** The decisions on the attempts of `ip`, in order. */
  function Decisions(run: seq<LoginAttempt>, ip: string): seq<bool> {
    if run == [] then []
    else
      var front, last := run[..|run| - 1], run[|run| - 1];
      if last.ip == ip then Decisions(front, ip) + [Admits(StoreAfter(front), last)] else Decisions(front, ip)
  }

  /** The same decisions, on the attempts a mask keeps only. */
  function KeptDecisions(run: seq<LoginAttempt>, mask: seq<bool>, ip: string): seq<bool>
    requires |mask| == |run|
  {
    if run == [] then []
    else
      var front, last := run[..|run| - 1], run[|run| - 1];
      var before := KeptDecisions(front, mask[..|front|], ip);
      if mask[|front|] && last.ip == ip then before + [Admits(StoreAfter(front), last)] else before
  }

  lemma {:induction false} KeptClocked(run: seq<LoginAttempt>, mask: seq<bool>)
    requires |mask| == |run| && Clocked(run)
    ensures Clocked(Kept(run, mask))
    ensures forall i :: 0 <= i < |Kept(run, mask)| ==> Kept(run, mask)[i] in run
  {
    if run != [] {
      var kept := Kept(run[..|run| - 1], mask[..|run| - 1]);
      KeptClocked(run[..|run| - 1], mask[..|run| - 1]);
      assert forall i :: 0 <= i < |kept| ==> kept[i] in run[..|run| - 1];
    }
  }

  lemma FrontDropsIrrelevant(run: seq<LoginAttempt>, mask: seq<bool>, ip: string)
    requires |mask| == |run| > 0 && DropsIrrelevant(run, mask, ip)
    ensures DropsIrrelevant(run[..|run| - 1], mask[..|run| - 1], ip)
  {
    var front := run[..|run| - 1];
    forall i | 0 <= i < |front| && !mask[i] ensures front[i].ip != ip || !Admitted(front, i) {
      assert front[..i] == run[..i];
      assert run[i].ip != ip || !Admitted(run, i);
    }
  }

  lemma OneMore(run: seq<LoginAttempt>, a: LoginAttempt, ip: string)
    ensures History(run + [a], ip) ==
            if a.ip == ip && Admits(StoreAfter(run), a) then History(run, ip) + [a.at] else History(run, ip)
    ensures Decisions(run + [a], ip) ==
            if a.ip == ip then Decisions(run, ip) + [Admits(StoreAfter(run), a)] else Decisions(run, ip)
  {
  }

  /** Two runs with the same admitted history of an address decide its next attempt alike. */
  lemma {:induction false} SameHistorySameDecision(run: seq<LoginAttempt>, run': seq<LoginAttempt>, a: LoginAttempt)
    requires Clocked(run) && (run != [] ==> run[|run| - 1].at <= a.at)
    requires Clocked(run') && (run' != [] ==> run'[|run'| - 1].at <= a.at)
    requires History(run, a.ip) == History(run', a.ip)
    ensures Admits(StoreAfter(run), a) == Admits(StoreAfter(run'), a)
  {
    StoreRefinesHistory(run, a.ip, a.at);
    StoreRefinesHistory(run', a.ip, a.at);
  }

  /** Deleting rejected attempts of an address, and any attempts of other addresses, changes neither its admitted
      history nor the decision on any attempt that is left. So a lockout is never extended by the attempts it
      rejects, and addresses do not affect each other. */
  lemma {:induction false} RejectedLeaveNoTrace(run: seq<LoginAttempt>, mask: seq<bool>, ip: string)
    requires Clocked(run) && |mask| == |run| && DropsIrrelevant(run, mask, ip)
    ensures History(Kept(run, mask), ip) == History(run, ip)
    ensures Decisions(Kept(run, mask), ip) == KeptDecisions(run, mask, ip)
  {
    if run != [] {
      var front, last := run[..|run| - 1], run[|run| - 1];
      var fmask := mask[..|front|];
      FrontDropsIrrelevant(run, mask, ip);
      RejectedLeaveNoTrace(front, fmask, ip);
      var kept := Kept(front, fmask);
      if mask[|front|] {
        OneMore(kept, last, ip);
        if last.ip == ip {
          KeptClocked(front, fmask);
          assert kept != [] ==> kept[|kept| - 1] in front;
          SameHistorySameDecision(front, kept, last);
        }
      } else {
        assert last.ip != ip || !Admitted(run, |front|);
      }
    }
  }

  /** Once sixty seconds have passed since every admitted attempt of an address, it is admitted again. */
  lemma {:induction false} LockoutEnds(run: seq<LoginAttempt>, ip: string, now: real)
    requires Clocked(run) && (run != [] ==> run[|run| - 1].at <= now)
    requires forall t :: t in History(run, ip) ==> now - t >= 60.0
    ensures Admits(StoreAfter(run), LoginAttempt(ip, now))
  {
    StoreRefinesHistory(run, ip, now);
    var recent := Recent(History(run, ip), now);
    assert recent != [] ==> recent[0] in recent;
  }
}
