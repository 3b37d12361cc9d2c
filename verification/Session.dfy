/** The reconnect loop and its disconnect watchdog (app.py). Times are readings
    of the clock, as reals; a shutdown request is the end of the attempts. */
module Session {
  import opened Bytes

  const RECONNECT_MIN_SECONDS: nat := 3
  const RECONNECT_MAX_SECONDS: nat := 60
  const DISCONNECT_TIMEOUT_S: real := 300.0
  const EXIT_DISCONNECTED: int := 11
  const EXIT_LOOP_ERROR: int := 14

  /** One turn of the loop. Refused: no connection. Broken: connected at `up`,
      then a broker fault. `stamp` and `check` are the two clock readings of the
      fault handler. Finished: the publish loop returned. Crashed: any other
      exception, before or after connecting. */
  datatype Attempt =
    | Refused(start: real, stamp: real, check: real)
    | Broken(start: real, up: real, stamp: real, check: real)
    | Finished(start: real, up: real, code: int)
    | Crashed(start: real, connected: Option<real>)

  // ---------------------------------------------------------------- the loop

  datatype Loop = Loop(connected: bool, lastConnectOk: real, lastDisconnect: real, connectCount: nat, delay: nat)

  const STARTED: Loop := Loop(false, 0.0, 0.0, 0, RECONNECT_MIN_SECONDS)

  /** When the turn connected, if it did. */
  function UpAt(a: Attempt): Option<real> {
    match a
    case Refused(_, _, _) => None
    case Broken(_, up, _, _) => Some(up)
    case Finished(_, up, _) => Some(up)
    case Crashed(_, connected) => connected
  }

  function Connect(s: Loop, a: Attempt): Loop {
    match UpAt(a)
    case None => s
    case Some(up) => s.(connected := true, lastConnectOk := up, connectCount := s.connectCount + 1)
  }

  /** The fault handler up to the check: the outage is stamped when it starts. */
  function Stamped(s: Loop, a: Attempt): Loop
    requires a.Refused? || a.Broken?
  {
    var c := Connect(s, a);
    var fresh' := c.lastConnectOk != s.lastConnectOk;
    c.(connected := false,
       lastDisconnect := if s.lastDisconnect == 0.0 || fresh' then a.stamp else s.lastDisconnect,
       delay := if fresh' then RECONNECT_MIN_SECONDS else s.delay)
  }

  /** The exit code of a turn, if it ends the loop. */
  function Exit(s: Loop, a: Attempt): Option<int> {
    match a
    case Finished(_, _, code) => Some(code)
    case Crashed(_, _) => Some(EXIT_LOOP_ERROR)
    case _ =>
      if a.check - Stamped(s, a).lastDisconnect > DISCONNECT_TIMEOUT_S then Some(EXIT_DISCONNECTED) else None
  }

  function Doubled(delay: nat): nat {
    if 2 * delay < RECONNECT_MAX_SECONDS then 2 * delay else RECONNECT_MAX_SECONDS
  }

  function Waited(s: Loop, a: Attempt): Loop
    requires a.Refused? || a.Broken?
  {
    var t := Stamped(s, a);
    t.(delay := Doubled(t.delay))
  }

  /** How the loop stands after `used` turns, and its exit code if it ended. */
  datatype Outcome = Outcome(loop: Loop, exit: Option<int>, used: nat)

  function Turns(s: Loop, attempts: seq<Attempt>): Outcome
    decreases |attempts|
  {
    if attempts == [] then Outcome(s, None, 0)
    else
      var a := attempts[0];
      if a.Finished? || a.Crashed? then Outcome(Connect(s, a), Exit(s, a), 1)
      else if Exit(s, a).Some? then Outcome(Stamped(s, a), Exit(s, a), 1)
      else
        var later := Turns(Waited(s, a), attempts[1..]);
        later.(used := later.used + 1)
  }

  class MqttHealth {
    var connected: bool
    var lastConnectOk: real
    var lastDisconnect: real
    var connectCount: nat

    constructor ()
      ensures !connected && lastConnectOk == 0.0 && lastDisconnect == 0.0 && connectCount == 0
    {
      connected, lastConnectOk, lastDisconnect, connectCount := false, 0.0, 0.0, 0;
    }

    function State(delay: nat): Loop
      reads this
    {
      Loop(connected, lastConnectOk, lastDisconnect, connectCount, delay)
    }

    method Reconnect(attempts: seq<Attempt>) returns (exit: Option<int>, ghost used: nat)
      modifies this
      ensures exists delay :: Outcome(State(delay), exit, used) == Turns(old(State(RECONNECT_MIN_SECONDS)), attempts)
    {
      var delay: nat := RECONNECT_MIN_SECONDS;
      used := 0;
      ghost var whole := Turns(State(delay), attempts);
      ghost var later := whole;
      var i := 0;
      assert attempts[0..] == attempts;
      while i < |attempts|
        invariant used == i <= |attempts|
        invariant later == Turns(State(delay), attempts[i..])
        invariant whole == later.(used := later.used + i)
      {
        var a := attempts[i];
        ghost var before := State(delay);
        assert attempts[i..][0] == a && attempts[i..][1..] == attempts[i + 1..];
        var connectedAt := lastConnectOk;
        i, used := i + 1, used + 1;
        var up := UpAt(a);
        if up.Some? {
          connected := true;
          lastConnectOk := up.value;
          connectCount := connectCount + 1;
        }
        assert State(delay) == Connect(before, a);
        if a.Finished? {
          return Some(a.code), used;
        }
        if a.Crashed? {
          return Some(EXIT_LOOP_ERROR), used;
        }
        connected := false;
        // Only the first failure of an outage is timed.
        if lastDisconnect == 0.0 || lastConnectOk != connectedAt {
          lastDisconnect := a.stamp;
        }
        if lastConnectOk != connectedAt {
          delay := RECONNECT_MIN_SECONDS; // this turn did connect
        }
        assert State(delay) == Stamped(before, a);
        if a.check - lastDisconnect > DISCONNECT_TIMEOUT_S {
          return Some(EXIT_DISCONNECTED), used;
        }
        delay := if 2 * delay < RECONNECT_MAX_SECONDS then 2 * delay else RECONNECT_MAX_SECONDS;
        later := Turns(State(delay), attempts[i..]);
      }
      return None, used;
    }
  }

  /** A turn that does not fail ends the loop: with the code of the publish loop,
      or with that for any other exception. */
  lemma EndsWithCode(s: Loop, a: Attempt, rest: seq<Attempt>)
    requires a.Finished? || a.Crashed?
    ensures var o := Turns(s, [a] + rest);
            o.used == 1 && o.exit == Some(if a.Finished? then a.code else EXIT_LOOP_ERROR)
    ensures var o := Turns(s, [a] + rest).loop;
            match UpAt(a)
            case Some(up) => o.connected && o.lastConnectOk == up && o.connectCount == s.connectCount + 1
            case None => o == s
  {
    assert ([a] + rest)[0] == a;
  }

  // ---------------------------------------------------------------- outages

  /** Every turn is a failure, and the clock only moves forward. */
  ghost predicate Failing(attempts: seq<Attempt>) {
    && (forall a <- attempts :: a.Refused? || a.Broken?)
    && (forall k {:trigger attempts[k]} :: 0 <= k < |attempts| ==>
         && 0.0 < attempts[k].start < attempts[k].stamp < attempts[k].check
         && (attempts[k].Broken? ==> attempts[k].start < attempts[k].up < attempts[k].stamp))
    && (forall j, k :: 0 <= j < k < |attempts| ==> attempts[j].check < attempts[k].start)
  }

  /** The turn in which the outage that includes turn n began: the last broken
      session, or the first turn of all. */
  function OutageStart(attempts: seq<Attempt>, n: nat): (k: nat)
    requires n < |attempts|
    ensures k <= n
  {
    if n == 0 || attempts[n].Broken? then n else OutageStart(attempts, n - 1)
  }

  /** The wait after the i-th further failure of an outage. */
  function Backoff(i: nat): nat {
    if i == 0 then RECONNECT_MIN_SECONDS else Doubled(Backoff(i - 1))
  }

  /** How long the broker has been known to be away at the check of turn n. */
  function DownFor(attempts: seq<Attempt>, n: nat): real
    requires n < |attempts| && Failing(attempts)
  {
    attempts[n].check - attempts[OutageStart(attempts, n)].stamp
  }

  /** The loop after turns 0..n-1 of a failing run. */
  function After(attempts: seq<Attempt>, n: nat): Loop
    requires n <= |attempts| && forall k :: 0 <= k < n ==> attempts[k].Refused? || attempts[k].Broken?
  {
    if n == 0 then STARTED else Waited(After(attempts, n - 1), attempts[n - 1])
  }

  /** The first turn, or one that connected, starts an outage; any other one
      prolongs it. */
  lemma TurnKeeps(s: Loop, a: Attempt)
    requires a.Refused? || (a.Broken? && a.start < a.up)
    requires 0.0 < a.start && (s.lastConnectOk == 0.0 || s.lastConnectOk < a.start)
    ensures Waited(s, a)
         == if a.Broken? then Loop(false, a.up, a.stamp, s.connectCount + 1, Doubled(RECONNECT_MIN_SECONDS))
            else s.(connected := false, delay := Doubled(s.delay),
                    lastDisconnect := if s.lastDisconnect == 0.0 then a.stamp else s.lastDisconnect)
  {
  }

  /** Of the first n turns, those that connected. */
  function Connects(attempts: seq<Attempt>, n: nat): nat
    requires n <= |attempts|
  {
    if n == 0 then 0 else Connects(attempts, n - 1) + (if attempts[n - 1].Broken? then 1 else 0)
  }

  /** The link counts as down after every failure, and each connect is counted once. */
  lemma {:induction false} LinkState(attempts: seq<Attempt>, n: nat)
    requires Failing(attempts) && n <= |attempts|
    ensures After(attempts, n).connectCount == Connects(attempts, n) && !After(attempts, n).connected
    decreases n
  {
    if n > 0 {
      LinkState(attempts, n - 1);
    }
  }

  /** s knows when the outage that includes turn n began, and how long to wait. */
  ghost predicate Knows(attempts: seq<Attempt>, n: nat, s: Loop)
    requires n < |attempts| && Failing(attempts)
  {
    var k := OutageStart(attempts, n);
    && s.lastDisconnect == attempts[k].stamp
    && s.delay == Backoff(n - k + 1)
    && (s.lastConnectOk == 0.0 || s.lastConnectOk < attempts[n].stamp)
  }

  lemma KnowsFirst(attempts: seq<Attempt>)
    requires Failing(attempts) && attempts != []
    ensures Knows(attempts, 0, Waited(STARTED, attempts[0]))
  {
    TurnKeeps(STARTED, attempts[0]);
    assert Backoff(0) == RECONNECT_MIN_SECONDS;
  }

  lemma KnowsNext(attempts: seq<Attempt>, n: nat, s: Loop)
    requires Failing(attempts) && 0 < n < |attempts| && Knows(attempts, n - 1, s)
    ensures Knows(attempts, n, Waited(s, attempts[n]))
  {
    assert attempts[n - 1].stamp < attempts[n - 1].check < attempts[n].start;
    assert 0.0 < attempts[OutageStart(attempts, n - 1)].stamp;
    TurnKeeps(s, attempts[n]);
    if attempts[n].Broken? {
      assert Backoff(0) == RECONNECT_MIN_SECONDS;
    }
  }

  /** What the loop remembers after turns 0..n. */
  lemma {:induction false} Remembers(attempts: seq<Attempt>, n: nat)
    requires Failing(attempts) && n < |attempts|
    ensures Knows(attempts, n, After(attempts, n + 1))
    decreases n
  {
    if n == 0 {
      KnowsFirst(attempts);
    } else {
      Remembers(attempts, n - 1);
      KnowsNext(attempts, n, After(attempts, n));
    }
  }

  /** Turn n finds the broker away for too long. */
  ghost predicate Over(attempts: seq<Attempt>, n: nat)
    requires n < |attempts| && Failing(attempts)
  {
    DownFor(attempts, n) > DISCONNECT_TIMEOUT_S
  }

  /** At turn n the handler measures exactly how long the outage has lasted. */
  lemma Measures(attempts: seq<Attempt>, n: nat)
    requires Failing(attempts) && n < |attempts|
    ensures Exit(After(attempts, n), attempts[n])
         == if Over(attempts, n) then Some(EXIT_DISCONNECTED) else None
  {
    Remembers(attempts, n);
  }

  lemma TurnOver(s: Loop, attempts: seq<Attempt>)
    requires attempts != [] && (attempts[0].Refused? || attempts[0].Broken?)
    ensures var o := Turns(s, attempts);
            if Exit(s, attempts[0]).Some? then o.exit == Exit(s, attempts[0]) && o.used == 1
            else
              var later := Turns(Waited(s, attempts[0]), attempts[1..]);
              o.exit == later.exit && o.used == later.used + 1
  {
  }

  lemma {:induction false} TurnsAre(attempts: seq<Attempt>, n: nat)
    requires Failing(attempts) && n <= |attempts|
    requires forall k :: 0 <= k < n ==> !Over(attempts, k)
    ensures var later := Turns(After(attempts, n), attempts[n..]);
            Turns(STARTED, attempts).exit == later.exit && Turns(STARTED, attempts).used == later.used + n
    decreases n
  {
    if n == 0 {
      assert attempts[0..] == attempts;
    } else {
      TurnsAre(attempts, n - 1);
      Measures(attempts, n - 1);
      assert attempts[n - 1..][1..] == attempts[n..] && attempts[n - 1..][0] == attempts[n - 1];
      TurnOver(After(attempts, n - 1), attempts[n - 1..]);
    }
  }

  lemma ExitsAt(attempts: seq<Attempt>, n: nat)
    requires Failing(attempts) && n < |attempts| && Over(attempts, n)
    requires forall k :: 0 <= k < n ==> !Over(attempts, k)
    ensures Turns(STARTED, attempts).exit == Some(EXIT_DISCONNECTED) && Turns(STARTED, attempts).used == n + 1
  {
    TurnsAre(attempts, n);
    Measures(attempts, n);
    assert attempts[n..][0] == attempts[n];
    TurnOver(After(attempts, n), attempts[n..]);
  }

  lemma NoExitYet(attempts: seq<Attempt>, n: nat)
    requires Failing(attempts) && n < |attempts|
    requires forall k :: 0 <= k <= n ==> !Over(attempts, k)
    ensures Turns(STARTED, attempts).exit != None ==> Turns(STARTED, attempts).used > n + 1
  {
    TurnsAre(attempts, n + 1);
    if n + 1 < |attempts| {
      assert attempts[n + 1..][0] == attempts[n + 1];
      TurnOver(After(attempts, n + 1), attempts[n + 1..]);
    }
  }

  /** The first turn up to n that is over, or n. */
  lemma {:induction false} FirstOver(attempts: seq<Attempt>, n: nat) returns (m: nat)
    requires Failing(attempts) && n < |attempts|
    ensures m <= n && (forall k :: 0 <= k < m ==> !Over(attempts, k))
    ensures Over(attempts, m) || m == n
  {
    m := 0;
    while m < n && !Over(attempts, m)
      invariant m <= n && forall k :: 0 <= k < m ==> !Over(attempts, k)
    {
      m := m + 1;
    }
  }

  /** The loop ends in turn n with EXIT_DISCONNECTED. */
  ghost predicate GivesUpAt(attempts: seq<Attempt>, n: nat) {
    Turns(STARTED, attempts).exit == Some(EXIT_DISCONNECTED) && Turns(STARTED, attempts).used == n + 1
  }

  /** The watchdog is exact: the loop exits in turn n with EXIT_DISCONNECTED if
      and only if that is the first turn to find the broker away for over 300 s. */
  lemma ExitsExactly(attempts: seq<Attempt>, n: nat)
    requires Failing(attempts) && n < |attempts|
    ensures GivesUpAt(attempts, n) <==> Over(attempts, n) && forall k :: 0 <= k < n ==> !Over(attempts, k)
  {
    var m := FirstOver(attempts, n);
    if Over(attempts, m) {
      ExitsAt(attempts, m);
    } else {
      NoExitYet(attempts, n);
    }
  }

  /** It never fires while the link was up in the previous 300 s: every session
      had broken before then. */
  lemma NoRecentSession(attempts: seq<Attempt>, n: nat, k: nat)
    requires Failing(attempts) && k <= n < |attempts| && attempts[k].Broken? && GivesUpAt(attempts, n)
    ensures attempts[k].up < attempts[k].stamp < attempts[n].check - DISCONNECT_TIMEOUT_S
  {
    ExitsExactly(attempts, n);
    StartsAfter(attempts, n, k);
    var s := OutageStart(attempts, n);
    assert attempts[k].stamp < attempts[k].check && attempts[s].start < attempts[s].stamp;
  }

  lemma {:induction false} StartsAfter(attempts: seq<Attempt>, n: nat, k: nat)
    requires k <= n < |attempts| && attempts[k].Broken?
    ensures k <= OutageStart(attempts, n)
    decreases n
  {
    if k < n && !attempts[n].Broken? {
      StartsAfter(attempts, n - 1, k);
    }
  }

  /** The wait the loop makes after turn n of a failing run. */
  function WaitAfter(attempts: seq<Attempt>, n: nat): real
    requires n < |attempts|
  {
    Backoff(n - OutageStart(attempts, n)) as real
  }

  /** No attempt starts before the wait is over. */
  ghost predicate Paced(attempts: seq<Attempt>)
    requires Failing(attempts)
  {
    forall k :: 0 <= k < |attempts| - 1 ==>
      attempts[k + 1].start >= attempts[k].check + WaitAfter(attempts, k)
  }

  /** No attempt starts later than `slack` after the wait is over. */
  ghost predicate Prompt(attempts: seq<Attempt>, slack: real)
    requires Failing(attempts)
  {
    forall k :: 0 <= k < |attempts| - 1 ==>
      attempts[k + 1].start <= attempts[k].check + WaitAfter(attempts, k) + slack
  }

  function TotalBackoff(i: nat): nat {
    if i == 0 then 0 else TotalBackoff(i - 1) + Backoff(i - 1)
  }

  lemma {:induction false} OutageGoesOn(attempts: seq<Attempt>, k: nat, i: nat)
    requires k + i < |attempts| && (k == 0 || attempts[k].Broken?)
    requires forall j :: k < j <= k + i ==> attempts[j].Refused?
    ensures OutageStart(attempts, k + i) == k
    decreases i
  {
    if i > 0 {
      OutageGoesOn(attempts, k, i - 1);
    }
  }

  lemma {:induction false} OutageLasts(attempts: seq<Attempt>, k: nat, i: nat)
    requires Failing(attempts) && Paced(attempts) && k + i < |attempts|
    requires k == 0 || attempts[k].Broken?
    requires forall j :: k < j <= k + i ==> attempts[j].Refused?
    ensures attempts[k + i].check >= attempts[k].check + TotalBackoff(i) as real
    decreases i
  {
    if i > 0 {
      OutageLasts(attempts, k, i - 1);
      var n := k + i - 1;
      OutageGoesOn(attempts, k, i - 1);
      assert WaitAfter(attempts, n) == Backoff(i - 1) as real;
      assert attempts[n + 1].start >= attempts[n].check + WaitAfter(attempts, n);
      assert attempts[n + 1].start < attempts[n + 1].check;
    }
  }

  lemma NineWaits()
    ensures TotalBackoff(9) == 333
  {
    assert Backoff(0) == 3 && Backoff(1) == 6 && Backoff(2) == 12 && Backoff(3) == 24 && Backoff(4) == 48;
    assert Backoff(5) == 60 && Backoff(6) == 60 && Backoff(7) == 60 && Backoff(8) == 60;
    assert TotalBackoff(5) == 93;
  }

  lemma LongEnough(attempts: seq<Attempt>, k: nat, i: nat)
    requires Failing(attempts) && Paced(attempts) && k + i < |attempts|
    requires k == 0 || attempts[k].Broken?
    requires forall j :: k < j <= k + i ==> attempts[j].Refused?
    requires TotalBackoff(i) > 300
    ensures Over(attempts, k + i)
  {
    OutageLasts(attempts, k, i);
    OutageGoesOn(attempts, k, i);
    assert attempts[k].stamp < attempts[k].check;
  }

  /** An outage in which nothing connects has been ended by its tenth failure. */
  lemma TenFailuresExit(attempts: seq<Attempt>, k: nat)
    requires Failing(attempts) && Paced(attempts) && k + 9 < |attempts|
    requires k == 0 || attempts[k].Broken?
    requires forall j :: k < j <= k + 9 ==> attempts[j].Refused?
    ensures exists n: nat :: n <= k + 9 && GivesUpAt(attempts, n)
  {
    NineWaits();
    LongEnough(attempts, k, 9);
    var n := FirstOver(attempts, k + 9);
    ExitsAt(attempts, n);
    assert GivesUpAt(attempts, n);
  }

  lemma {:induction false} BackoffBounds(i: nat)
    ensures RECONNECT_MIN_SECONDS <= Backoff(i) <= RECONNECT_MAX_SECONDS
  {
    if i > 0 {
      BackoffBounds(i - 1);
    }
  }

  /** However long waits and attempts take: the loop gives up at the first check
      past 300 s, so an outage lasts beyond that at most for the time since the
      check before; one noticed only in that turn, at most for the turn. */
  lemma ExitsAtNextCheck(attempts: seq<Attempt>, n: nat)
    requires Failing(attempts) && n < |attempts| && GivesUpAt(attempts, n)
    ensures DownFor(attempts, n)
         <= if OutageStart(attempts, n) == n then attempts[n].check - attempts[n].start
            else DISCONNECT_TIMEOUT_S + (attempts[n].check - attempts[n - 1].check)
  {
    ExitsExactly(attempts, n);
    if OutageStart(attempts, n) == n {
      assert attempts[n].start < attempts[n].stamp;
    } else {
      assert !Over(attempts, n - 1);
    }
  }

  /** The exit comes within 360 s of the start of the outage, plus what the
      timer was late by, plus the time the last attempt took to fail. */
  lemma ExitsInTime(attempts: seq<Attempt>, n: nat, slack: real)
    requires Failing(attempts) && slack >= 0.0 && Prompt(attempts, slack) && n < |attempts| && GivesUpAt(attempts, n)
    ensures DownFor(attempts, n)
         <= DISCONNECT_TIMEOUT_S + RECONNECT_MAX_SECONDS as real + slack + (attempts[n].check - attempts[n].start)
  {
    ExitsAtNextCheck(attempts, n);
    if OutageStart(attempts, n) < n {
      var k := n - 1;
      assert attempts[k + 1].start <= attempts[k].check + WaitAfter(attempts, k) + slack;
      BackoffBounds(k - OutageStart(attempts, k));
    }
  }
}
