/**
 * The scan session of the door scanner (app.js): the module-level variables
 * `scanner`, `isScanning`, `isLocked`, `lastToken` and `lastTokenTime`, the
 * decode gate `onScanSuccess`, the two halves of `processCheckin` around its
 * `await fetch`, the `scheduleUnlock` timer and `stopScanning`.
 *
 * Time is the `now` a decode is observed at; `setTimeout` is a count of
 * unlock timers not yet fired; the fetch in flight is a count of check-ins
 * whose reply has not arrived.  The observable calls (banner, request,
 * feedback, timer) are appended to an effect log.
 *
 * `State` and the step functions below are the specification; `ScanSession`
 * is the object the code mutates, and each of its methods is proved to take
 * `Snapshot()` one step.
 */
module Session {
  import opened Wrappers
  import opened Checkin

  /** Extra cooldown when the same code stays in view, in milliseconds. */
  const SAME_QR_COOLDOWN: int := 5000

  /** A snapshot of the session's variables. */
  datatype State = State(
    scanner: bool,              // `scanner !== null`
    scanning: bool,             // isScanning
    locked: bool,               // isLocked
    lastToken: Option<string>,  // lastToken (null at first)
    lastTokenTime: int,         // lastTokenTime
    inFlight: nat,              // check-ins whose fetch has not settled
    pendingUnlocks: nat,        // unlock timers not yet fired
    log: seq<Effect>)           // observable calls so far

  /** The variables as the page loads. */
  const Initial: State := State(false, false, false, None, 0, 0, 0, [])

  /** onScanSuccess lets a decode through: not locked, and not the last code again within the cooldown. */
  predicate Admits(s: State, text: string, now: int) {
    !s.locked && !(s.lastToken == Some(text) && now - s.lastTokenTime < SAME_QR_COOLDOWN)
  }

  /**
   * The gate, both ways: while locked nothing is admitted; the last code is
   * admitted again exactly when the cooldown has run out; any other code
   * (and every code before the first acceptance) exactly when unlocked.
   */
  lemma GateDecision(s: State, text: string, now: int)
    ensures s.locked ==> !Admits(s, text, now)
    ensures s.lastToken == Some(text) ==> (Admits(s, text, now) <==> !s.locked && now - s.lastTokenTime >= SAME_QR_COOLDOWN)
    ensures s.lastToken != Some(text) ==> (Admits(s, text, now) <==> !s.locked)
    ensures Admits(Initial, text, now)
  {
  }

  /** The effects of an accepted decode: the processCheckin call, run up to its await (online) or to its end. */
  function Accepted(text: string, online: bool): seq<Effect> {
    [CheckinCall(text)] + (if online then Begin(text) else Finish(Offline))
  }

  /** An accepted decode adds one check-in of its code, and a request for it only when online. */
  lemma AcceptedCounts(log: seq<Effect>, text: string, online: bool)
    ensures Checkins(log + Accepted(text, online)) == Checkins(log) + [text]
    ensures Requests(log + Accepted(text, online)) == Requests(log) + (if online then [text] else [])
  {
    var head := [CheckinCall(text)];
    var rest := if online then Begin(text) else Finish(Offline);
    assert head[1..] == [];
    assert Checkins(head) == [text] && Requests(head) == [];
    if online {
      BeginEffects(text);
    } else {
      ProcessCheckinEffects(text, Offline);
    }
    CheckinsDistribute(head, rest);
    RequestsDistribute(head, rest);
    CheckinsDistribute(log, head + rest);
    RequestsDistribute(log, head + rest);
  }

  /**
   * onScanSuccess(text) at time `now`, with processCheckin running up to its
   * await (online) or to its end (offline).
   */
  function Decode(s: State, text: string, now: int, online: bool): (t: State)
    // a dropped decode changes nothing
    ensures !Admits(s, text, now) ==> t == s
    // an accepted one locks, remembers the code and its time, and starts one check-in
    ensures Admits(s, text, now) ==>
      t.locked && t.lastToken == Some(text) && t.lastTokenTime == now
      && Checkins(t.log) == Checkins(s.log) + [text]
      && t.inFlight + t.pendingUnlocks == s.inFlight + s.pendingUnlocks + 1
    // only an accepted online decode sends a request, and it carries the code
    ensures Requests(t.log) == Requests(s.log) + (if Admits(s, text, now) && online then [text] else [])
    ensures t.scanner == s.scanner && t.scanning == s.scanning
  {
    if !Admits(s, text, now) then s
    else
      AcceptedCounts(s.log, text, online);
      s.(locked := true, lastToken := Some(text), lastTokenTime := now,
         inFlight := if online then s.inFlight + 1 else s.inFlight,
         pendingUnlocks := if online then s.pendingUnlocks else s.pendingUnlocks + 1,
         log := s.log + Accepted(text, online))
  }

  /** Settling a check-in adds its one feedback signal, and no request or check-in. */
  lemma FinishCounts(log: seq<Effect>, o: Outcome)
    ensures Signals(log + Finish(o)) == Signals(log) + [Classify(o).feedback]
    ensures Requests(log + Finish(o)) == Requests(log)
    ensures Checkins(log + Finish(o)) == Checkins(log)
  {
    var f := Finish(o);
    assert f == [Show(Classify(o).tone, Classify(o).message, Classify(o).name), Signal(Classify(o).feedback), UnlockScheduled];
    assert f[1..][1..][1..] == [];
    assert Signals(f) == [Classify(o).feedback];
    assert Requests(f) == [] && Checkins(f) == [];
    SignalsDistribute(log, f);
    RequestsDistribute(log, f);
    CheckinsDistribute(log, f);
  }

  /**
   * The fetch of an in-flight check-in settles with `o`: the final banner,
   * the feedback and the unlock timer.  With nothing in flight, or for
   * `Offline` (which no fetch yields), nothing happens.
   */
  function Reply(s: State, o: Outcome): (t: State)
    ensures s.inFlight == 0 || o.Offline? ==> t == s
    ensures s.inFlight > 0 && !o.Offline? ==>
      t.inFlight == s.inFlight - 1 && t.pendingUnlocks == s.pendingUnlocks + 1
      && t.locked == s.locked && Signals(t.log) == Signals(s.log) + [Classify(o).feedback]
      && Requests(t.log) == Requests(s.log)
    ensures s.inFlight > 0 && !o.Offline? ==> t.log == s.log + Finish(o)
    ensures Checkins(t.log) == Checkins(s.log)
    ensures t.lastToken == s.lastToken && t.lastTokenTime == s.lastTokenTime
    ensures t.scanner == s.scanner && t.scanning == s.scanning
  {
    if s.inFlight == 0 || o.Offline? then s
    else
      FinishCounts(s.log, o);
      s.(inFlight := s.inFlight - 1, pendingUnlocks := s.pendingUnlocks + 1, log := s.log + Finish(o))
  }

  /**
   * An unlock timer fires: the banner is hidden and the lock cleared; nothing
   * else changes.  With no timer pending there is nothing to fire.
   */
  function Unlock(s: State): (t: State)
    ensures s.pendingUnlocks == 0 ==> t == s
    ensures s.pendingUnlocks > 0 ==>
      !t.locked && t.pendingUnlocks == s.pendingUnlocks - 1 && t.log == s.log + [Hide]
      && t.(locked := s.locked, pendingUnlocks := s.pendingUnlocks, log := s.log) == s
  {
    if s.pendingUnlocks == 0 then s
    else s.(locked := false, pendingUnlocks := s.pendingUnlocks - 1, log := s.log + [Hide])
  }

  /**
   * stopScanning: with a scanner, it stops scanning and clears the lock, and
   * keeps the last code and its time so the cooldown survives a restart; the
   * fetch in flight and the pending timers are not cancelled.
   */
  function StopSession(s: State): (t: State)
    ensures !s.scanner ==> t == s
    ensures s.scanner ==> !t.scanner && !t.scanning && !t.locked
    ensures t.lastToken == s.lastToken && t.lastTokenTime == s.lastTokenTime
    ensures t.inFlight == s.inFlight && t.pendingUnlocks == s.pendingUnlocks && t.log == s.log
  {
    if !s.scanner then s
    else s.(scanner := false, scanning := false, locked := false)
  }

  /**
   * startScanning once the scanner key and a camera were found: it creates the
   * scanner and, if the camera starts, scans.  Already scanning: nothing.
   */
  function StartSession(s: State, running: bool): (t: State)
    ensures s.scanning ==> t == s
    ensures !s.scanning ==> t.scanner && t.scanning == running
    ensures t.locked == s.locked && t.lastToken == s.lastToken && t.lastTokenTime == s.lastTokenTime
    ensures t.inFlight == s.inFlight && t.pendingUnlocks == s.pendingUnlocks && t.log == s.log
  {
    if s.scanning then s
    else s.(scanner := true, scanning := running)
  }

  /** What can happen to a session. */
  datatype Event =
    | Decoded(text: string, now: int, online: bool)
    | Replied(outcome: Outcome)
    | UnlockFired
    | Stopped
    | Started(running: bool)

  function Step(s: State, e: Event): State {
    match e
    case Decoded(text, now, online) => Decode(s, text, now, online)
    case Replied(o) => Reply(s, o)
    case UnlockFired => Unlock(s)
    case Stopped => StopSession(s)
    case Started(running) => StartSession(s, running)
  }

  function Run(s: State, es: seq<Event>): State
    decreases |es|
  {
    if es == [] then s else Run(Step(s, es[0]), es[1..])
  }

  /**
   * Check-ins are serialized: the lock is held exactly while one check-in is
   * awaiting its reply or its unlock timer, and never more than one is.
   */
  predicate Serialized(s: State) {
    s.inFlight + s.pendingUnlocks <= 1 && (s.locked <==> s.inFlight + s.pendingUnlocks == 1)
  }

  /** Every event other than a stop keeps check-ins serialized. */
  lemma StepSerialized(s: State, e: Event)
    requires Serialized(s) && !e.Stopped?
    ensures Serialized(Step(s, e))
  {
  }

  /** Without a stop, any run from a serialized state stays serialized. */
  lemma {:induction false} RunSerialized(s: State, es: seq<Event>)
    requires Serialized(s)
    requires forall i :: 0 <= i < |es| ==> !es[i].Stopped?
    ensures Serialized(Run(s, es))
    decreases |es|
  {
    if es != [] {
      StepSerialized(s, es[0]);
      RunSerialized(Step(s, es[0]), es[1..]);
    }
  }

  /** At most one check-in is in flight in any run without a stop. */
  lemma AtMostOneInFlight(es: seq<Event>)
    requires forall i :: 0 <= i < |es| ==> !es[i].Stopped?
    ensures Run(Initial, es).inFlight <= 1
    ensures Run(Initial, es).locked <==> Run(Initial, es).inFlight + Run(Initial, es).pendingUnlocks == 1
  {
    RunSerialized(Initial, es);
  }

  /**
   * A stop clears the lock while a fetch is still in flight, so after a
   * restart a second code starts a second check-in beside the first.
   */
  lemma StopBreaksSerialization()
    ensures Run(Initial, [Started(true), Decoded("A", 0, true), Stopped, Started(true), Decoded("B", 1, true)]).inFlight == 2
  {
    var s1 := StartSession(Initial, true);
    var s2 := Decode(s1, "A", 0, true);
    var s3 := StopSession(s2);
    var s4 := StartSession(s3, true);
    var s5 := Decode(s4, "B", 1, true);
    assert s5.inFlight == 2;
    var es := [Started(true), Decoded("A", 0, true), Stopped, Started(true), Decoded("B", 1, true)];
    assert Run(s5, es[5..]) == s5;
    assert Run(s4, es[4..]) == s5;
    assert Run(s3, es[3..]) == s5;
    assert Run(s2, es[2..]) == s5;
    assert Run(s1, es[1..]) == s5;
  }

  /**
   * An unlock timer scheduled before a stop outlives it: accept A offline
   * (its timer is pending), stop, restart, accept B online; when A's timer
   * fires the gate is unlocked although B's fetch is still in flight.
   */
  lemma StaleTimerUnlocksEarly()
    ensures var s := Run(Initial, [Started(true), Decoded("A", 0, false), Stopped, Started(true), Decoded("B", 1, true), UnlockFired]);
      s.inFlight == 1 && !s.locked
  {
    var s1 := StartSession(Initial, true);
    var s2 := Decode(s1, "A", 0, false);
    var s3 := StopSession(s2);
    var s4 := StartSession(s3, true);
    var s5 := Decode(s4, "B", 1, true);
    var s6 := Unlock(s5);
    assert s6.inFlight == 1 && !s6.locked;
    var es := [Started(true), Decoded("A", 0, false), Stopped, Started(true), Decoded("B", 1, true), UnlockFired];
    assert Run(s6, es[6..]) == s6;
    assert Run(s5, es[5..]) == s6;
    assert Run(s4, es[4..]) == s6;
    assert Run(s3, es[3..]) == s6;
    assert Run(s2, es[2..]) == s6;
    assert Run(s1, es[1..]) == s6;
  }

  /** One event, if a decode then of the same code within the cooldown, starts no check-in. */
  lemma StepKeepsCooldown(s: State, e: Event, text: string)
    requires s.lastToken == Some(text)
    requires e.Decoded? ==> e.text == text && e.now - s.lastTokenTime < SAME_QR_COOLDOWN
    ensures var t := Step(s, e);
      Checkins(t.log) == Checkins(s.log) && Requests(t.log) == Requests(s.log)
      && t.lastToken == s.lastToken && t.lastTokenTime == s.lastTokenTime
  {
    if e.UnlockFired? && s.pendingUnlocks > 0 {
      CheckinsDistribute(s.log, [Hide]);
      RequestsDistribute(s.log, [Hide]);
    }
  }

  /**
   * The same code decoded again and again within the cooldown of its last
   * acceptance starts no check-in, whatever replies, timers, stops and
   * restarts happen in between.
   */
  lemma {:induction false} CooldownSuppresses(s: State, es: seq<Event>, text: string)
    requires s.lastToken == Some(text)
    requires forall i :: 0 <= i < |es| && es[i].Decoded? ==>
      es[i].text == text && es[i].now - s.lastTokenTime < SAME_QR_COOLDOWN
    ensures Checkins(Run(s, es).log) == Checkins(s.log)
    ensures Requests(Run(s, es).log) == Requests(s.log)
    ensures Run(s, es).lastToken == s.lastToken && Run(s, es).lastTokenTime == s.lastTokenTime
    decreases |es|
  {
    if es != [] {
      var t := Step(s, es[0]);
      StepKeepsCooldown(s, es[0], text);
      forall i | 0 <= i < |es[1..]| && es[1..][i].Decoded?
        ensures es[1..][i].text == text && es[1..][i].now - t.lastTokenTime < SAME_QR_COOLDOWN
      {
        assert es[1..][i] == es[i + 1];
      }
      CooldownSuppresses(t, es[1..], text);
    }
  }

  /**
   * Decode and, online, Reply together perform exactly one processCheckin
   * call: the check-in marker followed by every effect of ProcessCheckin, and
   * leave the session locked with one unlock timer pending.
   */
  lemma CheckinFlow(s: State, text: string, now: int, o: Outcome)
    requires Admits(s, text, now)
    ensures o.Offline? ==>
      var t := Decode(s, text, now, false);
      t.log == s.log + [CheckinCall(text)] + ProcessCheckin(text, o)
      && t.locked && t.pendingUnlocks == s.pendingUnlocks + 1 && t.inFlight == s.inFlight
    ensures !o.Offline? ==>
      var t := Reply(Decode(s, text, now, true), o);
      t.log == s.log + [CheckinCall(text)] + ProcessCheckin(text, o)
      && t.locked && t.pendingUnlocks == s.pendingUnlocks + 1 && t.inFlight == s.inFlight
  {
    var b := [CheckinCall(text)];
    if !o.Offline? {
      assert s.log + Accepted(text, true) + Finish(o) == s.log + b + (Begin(text) + Finish(o));
    } else {
      assert s.log + Accepted(text, false) == s.log + b + Finish(Offline);
    }
  }

  /** The session's variables, updated in place as the code does. */
  class ScanSession {
    var hasScanner: bool
    var isScanning: bool
    var isLocked: bool
    var lastToken: Option<string>
    var lastTokenTime: int
    var inFlight: nat
    var pendingUnlocks: nat
    var effects: seq<Effect>

    function Snapshot(): State
      reads this
    {
      State(hasScanner, isScanning, isLocked, lastToken, lastTokenTime, inFlight, pendingUnlocks, effects)
    }

    constructor ()
      ensures Snapshot() == Initial
    {
      hasScanner, isScanning, isLocked := false, false, false;
      lastToken, lastTokenTime := None, 0;
      inFlight, pendingUnlocks := 0, 0;
      effects := [];
    }

    /** onScanSuccess(text), observed at `now`, with `online` the value of navigator.onLine. */
    method OnScan(text: string, now: int, online: bool) returns (accepted: bool)
      modifies this
      ensures accepted == Admits(old(Snapshot()), text, now)
      ensures Snapshot() == Decode(old(Snapshot()), text, now, online)
    {
      if isLocked {
        return false;
      }
      if lastToken == Some(text) && now - lastTokenTime < SAME_QR_COOLDOWN {
        return false;
      }
      isLocked := true;
      lastToken := Some(text);
      lastTokenTime := now;
      accepted := true;
      BeginCheckin(text, online);
    }

    /** processCheckin(token) up to its await: offline it concludes at once, online it sends the request. */
    method BeginCheckin(token: string, online: bool)
      modifies this
      ensures online ==> Snapshot() == old(Snapshot()).(inFlight := old(inFlight) + 1, log := old(effects) + Accepted(token, true))
      ensures !online ==> Snapshot() == old(Snapshot()).(pendingUnlocks := old(pendingUnlocks) + 1, log := old(effects) + Accepted(token, false))
    {
      effects := effects + [CheckinCall(token)];
      if !online {
        Conclude(Offline);
        assert effects == old(effects) + [CheckinCall(token)] + Finish(Offline);
        return;
      }
      effects := effects + [Show(Checking, Literal(CHECKING_TEXT), "")];
      effects := effects + [Request(token)];
      inFlight := inFlight + 1;
      assert effects == old(effects) + [CheckinCall(token)] + Begin(token);
    }

    /** processCheckin after its await: the fetch of an in-flight check-in settled with `o`. */
    method CompleteCheckin(o: Outcome)
      requires inFlight > 0 && !o.Offline?
      modifies this
      ensures Snapshot() == Reply(old(Snapshot()), o)
    {
      inFlight := inFlight - 1;
      Conclude(o);
    }

    /** The final banner, the feedback and scheduleUnlock, as every branch of processCheckin ends. */
    method Conclude(o: Outcome)
      modifies this
      ensures Snapshot() == old(Snapshot()).(pendingUnlocks := old(pendingUnlocks) + 1, log := old(effects) + Finish(o))
    {
      var d := Classify(o);
      effects := effects + [Show(d.tone, d.message, d.name)];
      effects := effects + [Signal(d.feedback)];
      ScheduleUnlock();
      assert effects == old(effects) + Finish(o);
    }

    /** scheduleUnlock: one more unlock timer. */
    method ScheduleUnlock()
      modifies this
      ensures Snapshot() == old(Snapshot()).(pendingUnlocks := old(pendingUnlocks) + 1, log := old(effects) + [UnlockScheduled])
    {
      effects := effects + [UnlockScheduled];
      pendingUnlocks := pendingUnlocks + 1;
    }

    /** An unlock timer fires: hideBanner and clear the lock. */
    method FireUnlock()
      requires pendingUnlocks > 0
      modifies this
      ensures Snapshot() == Unlock(old(Snapshot()))
    {
      pendingUnlocks := pendingUnlocks - 1;
      effects := effects + [Hide];
      isLocked := false;
    }

    /** stopScanning. */
    method Stop()
      modifies this
      ensures Snapshot() == StopSession(old(Snapshot()))
    {
      if !hasScanner {
        return;
      }
      hasScanner := false;
      isScanning := false;
      isLocked := false;
    }

    /** startScanning once the scanner key and a camera were found; `running` says whether the camera started. */
    method Start(running: bool)
      modifies this
      ensures Snapshot() == StartSession(old(Snapshot()), running)
    {
      if isScanning {
        return;
      }
      hasScanner := true;
      isScanning := running;
    }
  }
}
