/**
 * The failover session factory as a protocol: any number of callers and one probe thread share
 * the active-engine flag and a lock, and every shared read or write is a step of its own.
 * Health-query outcomes are chosen by the environment.
 */
module FailoverProtocol {
  import opened Counting

  datatype Engine = Primary | Fallback

  // What a health query did.  Callers tell OperationalError from every other exception.
  datatype Outcome = Healthy | OperationalError | OtherError

  datatype Status = Open | Returned | Closed

  // `healthy`: the health query on the session succeeded.
  datatype Session = Session(engine: Engine, owner: nat, status: Status, healthy: bool)

  // Where a caller stands inside the factory call.
  datatype Pc =
    | Idle
    | TryPrimary(sid: nat)    // primary session open, health query still to come
    | FailureSeen             // primary session closed after an OperationalError, lock not yet taken
    | Locked                  // holds the lock, has not re-read the flag
    | Switching               // holds the lock, re-read "primary", about to write "fallback"
    | Unlocking               // holds the lock, nothing left to do under it
    | TryFallback(sid: nat)   // fallback session open, health query still to come

  datatype ProbePc = Asleep | Querying | Recovered | ProbeLocked | ProbeSwitching | ProbeUnlocking

  datatype Holder = Caller(i: nat) | Probe

  datatype Lock = Free | Held(holder: Holder)

  datatype State = State(
    hasFallback: bool, active: Engine, lock: Lock,
    callers: seq<Pc>, probe: ProbePc, sessions: seq<Session>)

  datatype Event =
    | Begin(i: nat)
    | PrimaryQuery(i: nat, outcome: Outcome)
    | Acquire(i: nat)
    | Recheck(i: nat)
    | Switch(i: nat)
    | Release(i: nat)
    | FallbackQuery(i: nat, outcome: Outcome)
    | ProbeWake
    | ProbeQuery(outcome: Outcome)
    | ProbeAcquire
    | ProbeRecheck
    | ProbeSwitch
    | ProbeRelease

  function Init(hasFallback: bool, n: nat): State
  {
    State(hasFallback, Primary, Free, seq(n, _ => Idle), Asleep, [])
  }

  predicate At(s: State, i: nat, pc: Pc)
  {
    i < |s.callers| && s.callers[i] == pc
  }

  predicate Enabled(s: State, e: Event)
  {
    match e
    case Begin(i) => At(s, i, Idle)
    case PrimaryQuery(i, _) =>
      i < |s.callers| && s.callers[i].TryPrimary? && s.callers[i].sid < |s.sessions|
    case Acquire(i) => At(s, i, FailureSeen) && s.lock.Free?
    case Recheck(i) => At(s, i, Locked)
    case Switch(i) => At(s, i, Switching)
    case Release(i) => At(s, i, Unlocking)
    case FallbackQuery(i, _) =>
      i < |s.callers| && s.callers[i].TryFallback? && s.callers[i].sid < |s.sessions|
    case ProbeWake => s.hasFallback && s.probe.Asleep?
    case ProbeQuery(_) => s.probe.Querying?
    case ProbeAcquire => s.probe.Recovered? && s.lock.Free?
    case ProbeRecheck => s.probe.ProbeLocked?
    case ProbeSwitch => s.probe.ProbeSwitching?
    case ProbeRelease => s.probe.ProbeUnlocking?
  }

  predicate IsProbeEvent(e: Event)
  {
    e.ProbeWake? || e.ProbeQuery? || e.ProbeAcquire? || e.ProbeRecheck? || e.ProbeSwitch? || e.ProbeRelease?
  }

  // Caller i opens a session on `engine` and stands at the matching health query.
  function OpenSession(s: State, i: nat, engine: Engine): State
    requires i < |s.callers|
  {
    var sid := |s.sessions|;
    s.(sessions := s.sessions + [Session(engine, i, Open, false)],
       callers := s.callers[i := if engine == Fallback then TryFallback(sid) else TryPrimary(sid)])
  }

  // The query on the session ended in `outcome`, and its caller gave it that status.
  function Settle(s: State, sid: nat, status: Status, outcome: Outcome): State
    requires sid < |s.sessions|
  {
    s.(sessions := s.sessions[sid := s.sessions[sid].(status := status, healthy := outcome == Healthy)])
  }

  function MoveTo(s: State, i: nat, pc: Pc): State
    requires i < |s.callers|
  {
    s.(callers := s.callers[i := pc])
  }

  function Step(s: State, e: Event): State
    requires Enabled(s, e)
  {
    match e
    case Begin(i) =>
      // Single-engine mode hands out a primary session with no health query.
      if !s.hasFallback then s.(sessions := s.sessions + [Session(Primary, i, Returned, false)])
      else OpenSession(s, i, s.active)
    case PrimaryQuery(i, outcome) =>
      var sid := s.callers[i].sid;
      match outcome {
        case Healthy => MoveTo(Settle(s, sid, Returned, outcome), i, Idle)
        case OperationalError => MoveTo(Settle(s, sid, Closed, outcome), i, FailureSeen)
        // Only OperationalError is caught, so this session is never closed.
        case OtherError => MoveTo(s, i, Idle)
      }
    case Acquire(i) => MoveTo(s.(lock := Held(Caller(i))), i, Locked)
    case Recheck(i) => MoveTo(s, i, if s.active == Primary && s.hasFallback then Switching else Unlocking)
    case Switch(i) => MoveTo(s.(active := Fallback), i, Unlocking)
    case Release(i) => OpenSession(s.(lock := Free), i, Fallback)
    case FallbackQuery(i, outcome) =>
      MoveTo(Settle(s, s.callers[i].sid, if outcome == Healthy then Returned else Closed, outcome), i, Idle)
    case ProbeWake => s.(probe := if s.active == Fallback then Querying else Asleep)
    case ProbeQuery(outcome) => s.(probe := if outcome == Healthy then Recovered else Asleep)
    case ProbeAcquire => s.(lock := Held(Probe), probe := ProbeLocked)
    case ProbeRecheck => s.(probe := if s.active == Fallback then ProbeSwitching else ProbeUnlocking)
    case ProbeSwitch => s.(active := Primary, probe := ProbeUnlocking)
    case ProbeRelease => s.(lock := Free, probe := Asleep)
  }

  // ----- runs -----

  // The state after the events `es`; an event that is not enabled changes nothing.
  function Exec(s: State, es: seq<Event>): State
  {
    if es == [] then s
    else
      var before := Exec(s, es[..|es| - 1]);
      var e := es[|es| - 1];
      if Enabled(before, e) then Step(before, e) else before
  }

  predicate Legal(s: State, es: seq<Event>)
  {
    es == [] ||
    (Legal(s, es[..|es| - 1]) && Enabled(Exec(s, es[..|es| - 1]), es[|es| - 1]))
  }

  lemma {:induction false} LegalPrefix(s: State, es: seq<Event>, k: nat)
    requires Legal(s, es) && k <= |es|
    ensures Legal(s, es[..k])
    ensures k < |es| ==> Enabled(Exec(s, es[..k]), es[k])
    decreases |es|
  {
    var n := |es|;
    if k == n {
      assert es[..k] == es;
    } else if k < n - 1 {
      LegalPrefix(s, es[..n - 1], k);
      assert es[..n - 1][..k] == es[..k];
    }
  }

  lemma {:induction false} ExecAppend(s: State, es: seq<Event>, fs: seq<Event>)
    ensures Exec(s, es + fs) == Exec(Exec(s, es), fs)
    ensures Legal(s, es + fs) <==> Legal(s, es) && Legal(Exec(s, es), fs)
  {
    if fs == [] {
      assert es + fs == es;
    } else {
      var all := es + fs;
      assert all[..|all| - 1] == es + fs[..|fs| - 1];
      ExecAppend(s, es, fs[..|fs| - 1]);
    }
  }

  lemma ExecSnoc(s: State, es: seq<Event>, e: Event)
    requires Legal(s, es) && Enabled(Exec(s, es), e)
    ensures Legal(s, es + [e]) && Exec(s, es + [e]) == Step(Exec(s, es), e)
  {
    assert (es + [e])[..|es|] == es;
  }

  lemma StepAlong(s: State, es: seq<Event>, k: nat)
    requires k < |es| && Legal(s, es[..k]) && Enabled(Exec(s, es[..k]), es[k])
    ensures Legal(s, es[..k + 1]) && Exec(s, es[..k + 1]) == Step(Exec(s, es[..k]), es[k])
  {
    assert es[..k + 1] == es[..k] + [es[k]];
    ExecSnoc(s, es[..k], es[k]);
  }

  lemma TwoEvents(s: State, e: Event, f: Event)
    requires Enabled(s, e) && Enabled(Step(s, e), f)
    ensures Legal(s, [e, f]) && Exec(s, [e, f]) == Step(Step(s, e), f)
  {
    assert [] + [e] == [e] && [e] + [f] == [e, f];
    ExecSnoc(s, [], e);
    ExecSnoc(s, [e], f);
  }

  // ----- the invariant -----

  predicate CallerHolds(pc: Pc) { pc.Locked? || pc.Switching? || pc.Unlocking? }

  predicate ProbeHolds(pc: ProbePc) { pc.ProbeLocked? || pc.ProbeSwitching? || pc.ProbeUnlocking? }

  // The session a caller has open and has not yet handed over or closed.
  predicate OwnsSession(s: State, i: nat, sid: nat, engine: Engine)
  {
    sid < |s.sessions| && s.sessions[sid] == Session(engine, i, Open, false)
  }

  predicate CallerOk(s: State, i: nat)
    requires i < |s.callers|
  {
    var pc := s.callers[i];
    && (CallerHolds(pc) <==> s.lock == Held(Caller(i)))
    && (pc.Switching? ==> s.active == Primary)
    && (pc.Unlocking? ==> s.active == Fallback)
    && (pc.TryPrimary? ==> OwnsSession(s, i, pc.sid, Primary))
    && (pc.TryFallback? ==> OwnsSession(s, i, pc.sid, Fallback))
    && (!pc.Idle? ==> s.hasFallback)
  }

  predicate ProbeOk(s: State)
  {
    && (ProbeHolds(s.probe) <==> s.lock == Held(Probe))
    && (s.probe.ProbeSwitching? ==> s.active == Fallback)
    && (s.probe.ProbeUnlocking? ==> s.active == Primary)
    && (!s.probe.Asleep? ==> s.hasFallback)
  }

  predicate Inv(s: State)
  {
    && (s.active == Fallback ==> s.hasFallback)
    && (s.lock.Held? && s.lock.holder.Caller? ==> s.lock.holder.i < |s.callers|)
    && (forall i :: 0 <= i < |s.callers| ==> CallerOk(s, i))
    && ProbeOk(s)
    && (forall k :: 0 <= k < |s.sessions| && s.sessions[k].status == Returned && s.hasFallback
          ==> s.sessions[k].healthy)
  }

  lemma InitInv(hasFallback: bool, n: nat)
    ensures Inv(Init(hasFallback, n))
  {
  }

  lemma StepCallerOk(s: State, e: Event, j: nat)
    requires Inv(s) && Enabled(s, e) && j < |s.callers|
    ensures |Step(s, e).callers| == |s.callers| && CallerOk(Step(s, e), j)
  {
    assert CallerOk(s, j);
    if !IsProbeEvent(e) { CallerStepOk(s, e, j); }
  }

  lemma CallerStepOk(s: State, e: Event, j: nat)
    requires Inv(s) && Enabled(s, e) && !IsProbeEvent(e) && j < |s.callers|
    ensures |Step(s, e).callers| == |s.callers| && CallerOk(Step(s, e), j)
  {
    assert CallerOk(s, e.i) && CallerOk(s, j);
  }

  lemma StepProbeOk(s: State, e: Event)
    requires Inv(s) && Enabled(s, e)
    ensures ProbeOk(Step(s, e))
  {
    assert !IsProbeEvent(e) ==> CallerOk(s, e.i);
  }

  lemma StepInv(s: State, e: Event)
    requires Inv(s) && Enabled(s, e)
    ensures Inv(Step(s, e))
    ensures Step(s, e).hasFallback == s.hasFallback && |Step(s, e).callers| == |s.callers|
  {
    StepProbeOk(s, e);
    forall j | 0 <= j < |s.callers|
      ensures |Step(s, e).callers| == |s.callers| && CallerOk(Step(s, e), j)
    {
      StepCallerOk(s, e, j);
    }
    assert !IsProbeEvent(e) ==> CallerOk(s, e.i);
  }

  lemma {:induction false} RunInv(s: State, es: seq<Event>)
    requires Inv(s) && Legal(s, es)
    ensures Inv(Exec(s, es))
    ensures Exec(s, es).hasFallback == s.hasFallback && |Exec(s, es).callers| == |s.callers|
  {
    if es != [] {
      RunInv(s, es[..|es| - 1]);
      StepInv(Exec(s, es[..|es| - 1]), es[|es| - 1]);
    }
  }

  /** Safety over every run: the fallback is active only where one is configured, at most one
      thread is inside the critical section, and with a fallback every session that was handed
      out passed its health query. */
  lemma {:induction false} SafeOverEveryRun(hasFallback: bool, n: nat, es: seq<Event>)
    requires Legal(Init(hasFallback, n), es)
    ensures var s := Exec(Init(hasFallback, n), es);
      && (s.active == Fallback ==> hasFallback)
      && (forall i, j :: 0 <= i < j < |s.callers| ==> !(CallerHolds(s.callers[i]) && CallerHolds(s.callers[j])))
      && (forall i :: 0 <= i < |s.callers| && CallerHolds(s.callers[i]) ==> !ProbeHolds(s.probe))
      && (forall k :: 0 <= k < |s.sessions| && s.sessions[k].status == Returned && hasFallback
            ==> s.sessions[k].healthy)
  {
    RunInv(Init(hasFallback, n), es);
    var s := Exec(Init(hasFallback, n), es);
    forall i, j | 0 <= i < j < |s.callers|
      ensures !(CallerHolds(s.callers[i]) && CallerHolds(s.callers[j]))
    {
      assert CallerOk(s, i) && CallerOk(s, j);
    }
    forall i | 0 <= i < |s.callers| && CallerHolds(s.callers[i])
      ensures !ProbeHolds(s.probe)
    {
      assert CallerOk(s, i);
    }
  }

  // ----- what becomes of a session -----

  // The event is a health query on session sid of that engine, by the caller that stands at it.
  predicate Queries(s: State, e: Event, engine: Engine, sid: nat, outcome: Outcome)
  {
    match engine
    case Primary => e.PrimaryQuery? && e.outcome == outcome && At(s, e.i, TryPrimary(sid))
    case Fallback => e.FallbackQuery? && e.outcome == outcome && At(s, e.i, TryFallback(sid))
  }

  predicate QueriedAt(s: State, es: seq<Event>, k: nat, engine: Engine, sid: nat, outcome: Outcome)
  {
    k < |es| && Queries(Exec(s, es[..k]), es[k], engine, sid, outcome)
  }

  // Some event of the run is such a query.
  ghost predicate Answered(s: State, es: seq<Event>, engine: Engine, sid: nat, outcome: Outcome)
  {
    exists k: nat :: QueriedAt(s, es, k, engine, sid, outcome)
  }

  predicate HasStatus(s: State, sid: nat, status: Status) { sid < |s.sessions| && s.sessions[sid].status == status }

  lemma StepHands(s: State, e: Event, sid: nat)
    requires Inv(s) && Enabled(s, e) && s.hasFallback
    ensures HasStatus(Step(s, e), sid, Returned) <==>
      HasStatus(s, sid, Returned) || Queries(s, e, Primary, sid, Healthy) || Queries(s, e, Fallback, sid, Healthy)
  {
    assert !IsProbeEvent(e) ==> CallerOk(s, e.i);
  }

  lemma StepShuts(s: State, e: Event, sid: nat)
    requires Inv(s) && Enabled(s, e) && s.hasFallback
    ensures HasStatus(Step(s, e), sid, Closed) <==>
      || HasStatus(s, sid, Closed) || Queries(s, e, Primary, sid, OperationalError)
      || Queries(s, e, Fallback, sid, OperationalError) || Queries(s, e, Fallback, sid, OtherError)
  {
    assert !IsProbeEvent(e) ==> CallerOk(s, e.i);
  }

  lemma AnsweredSnoc(s: State, pre: seq<Event>, e: Event, engine: Engine, sid: nat, outcome: Outcome)
    ensures Answered(s, pre + [e], engine, sid, outcome)
      <==> (Answered(s, pre, engine, sid, outcome) || Queries(Exec(s, pre), e, engine, sid, outcome))
  {
    var es := pre + [e];
    assert forall k :: 0 <= k <= |pre| ==> es[..k] == pre[..k];
    assert pre[..|pre|] == pre;
    if k: nat :| QueriedAt(s, es, k, engine, sid, outcome) {
      assert k < |pre| ==> QueriedAt(s, pre, k, engine, sid, outcome);
    }
    if k: nat :| QueriedAt(s, pre, k, engine, sid, outcome) {
      assert QueriedAt(s, es, k, engine, sid, outcome);
    }
    if Queries(Exec(s, pre), e, engine, sid, outcome) {
      assert QueriedAt(s, es, |pre|, engine, sid, outcome);
    }
  }

  /** With a fallback, over every run: a session was handed out if and only if a health query by the
      caller that stood at it succeeded. */
  lemma {:induction false} HandedIffHealthy(n: nat, es: seq<Event>, sid: nat)
    requires Legal(Init(true, n), es)
    ensures HasStatus(Exec(Init(true, n), es), sid, Returned) <==>
      Answered(Init(true, n), es, Primary, sid, Healthy) || Answered(Init(true, n), es, Fallback, sid, Healthy)
  {
    if es != [] {
      var pre, e := es[..|es| - 1], es[|es| - 1];
      assert es == pre + [e];
      HandedIffHealthy(n, pre, sid);
      RunInv(Init(true, n), pre);
      StepHands(Exec(Init(true, n), pre), e, sid);
      AnsweredSnoc(Init(true, n), pre, e, Primary, sid, Healthy);
      AnsweredSnoc(Init(true, n), pre, e, Fallback, sid, Healthy);
    }
  }

  /** And it was closed if and only if such a query failed, on the primary with an OperationalError. */
  lemma {:induction false} ClosedIffFailed(n: nat, es: seq<Event>, sid: nat)
    requires Legal(Init(true, n), es)
    ensures HasStatus(Exec(Init(true, n), es), sid, Closed) <==>
      || Answered(Init(true, n), es, Primary, sid, OperationalError)
      || Answered(Init(true, n), es, Fallback, sid, OperationalError)
      || Answered(Init(true, n), es, Fallback, sid, OtherError)
  {
    if es != [] {
      var pre, e := es[..|es| - 1], es[|es| - 1];
      assert es == pre + [e];
      ClosedIffFailed(n, pre, sid);
      RunInv(Init(true, n), pre);
      StepShuts(Exec(Init(true, n), pre), e, sid);
      AnsweredSnoc(Init(true, n), pre, e, Primary, sid, OperationalError);
      AnsweredSnoc(Init(true, n), pre, e, Fallback, sid, OperationalError);
      AnsweredSnoc(Init(true, n), pre, e, Fallback, sid, OtherError);
    }
  }

  // ----- switches alternate -----

  // The engines written to the flag, in order.
  function Targets(es: seq<Event>): seq<Engine>
  {
    if es == [] then []
    else Targets(es[..|es| - 1]) + Writes(es[|es| - 1])
  }

  function Writes(e: Event): seq<Engine>
  {
    if e.Switch? then [Fallback] else if e.ProbeSwitch? then [Primary] else []
  }

  lemma WriteFlips(s: State, e: Event)
    requires Inv(s) && Enabled(s, e)
    ensures Step(s, e).active == if Writes(e) == [] then s.active else Writes(e)[0]
    ensures Writes(e) != [] ==> Writes(e)[0] != s.active
  {
    assert !IsProbeEvent(e) ==> CallerOk(s, e.i);
  }

  /** No write of the flag is redundant: fallback, primary, fallback, ... from the first switch on,
      and the flag always shows the latest target. */
  lemma {:induction false} SwitchesAlternate(hasFallback: bool, n: nat, es: seq<Event>)
    requires Legal(Init(hasFallback, n), es)
    ensures forall k :: 0 <= k < |Targets(es)| ==> Targets(es)[k] == if k % 2 == 0 then Fallback else Primary
    ensures Exec(Init(hasFallback, n), es).active == if |Targets(es)| % 2 == 0 then Primary else Fallback
  {
    if es != [] {
      var pre := es[..|es| - 1];
      SwitchesAlternate(hasFallback, n, pre);
      RunInv(Init(hasFallback, n), pre);
      WriteFlips(Exec(Init(hasFallback, n), pre), es[|es| - 1]);
    }
  }

  // ----- every switch is justified by the thread that makes it -----

  // What caller i has itself observed of the primary in its current call.
  function Evidence(es: seq<Event>, i: nat): set<Outcome>
  {
    if es == [] then {}
    else
      match es[|es| - 1]
      case Begin(j) => if i == j then {} else Evidence(es[..|es| - 1], i)
      case PrimaryQuery(j, outcome) => if i == j then {outcome} else Evidence(es[..|es| - 1], i)
      case _ => Evidence(es[..|es| - 1], i)
  }

  // What the probe has observed of the primary since it last woke up.
  function ProbeEvidence(es: seq<Event>): set<Outcome>
  {
    if es == [] then {}
    else
      match es[|es| - 1]
      case ProbeWake => {}
      case ProbeQuery(outcome) => {outcome}
      case _ => ProbeEvidence(es[..|es| - 1])
  }

  predicate IsPending(pc: Pc) { pc.FailureSeen? || pc.Locked? || pc.Switching? }

  lemma {:induction false} EvidenceHeld(hasFallback: bool, n: nat, es: seq<Event>)
    requires Legal(Init(hasFallback, n), es)
    ensures var s := Exec(Init(hasFallback, n), es);
      forall i :: 0 <= i < |s.callers| && IsPending(s.callers[i]) ==> Evidence(es, i) == {OperationalError}
  {
    if es != [] {
      EvidenceHeld(hasFallback, n, es[..|es| - 1]);
    }
  }

  lemma {:induction false} ProbeEvidenceHeld(hasFallback: bool, n: nat, es: seq<Event>)
    requires Legal(Init(hasFallback, n), es)
    ensures var s := Exec(Init(hasFallback, n), es);
      s.probe.Recovered? || ProbeHolds(s.probe) ==> ProbeEvidence(es) == {Healthy}
  {
    if es != [] {
      ProbeEvidenceHeld(hasFallback, n, es[..|es| - 1]);
    }
  }

  /** A caller switches to the fallback only after its own primary query in the same call ended in
      OperationalError; the probe switches back only after its own query since waking succeeded. */
  lemma {:induction false} SwitchesAreJustified(hasFallback: bool, n: nat, es: seq<Event>, k: nat)
    requires Legal(Init(hasFallback, n), es) && k < |es|
    ensures es[k].Switch? ==> Evidence(es[..k], es[k].i) == {OperationalError}
    ensures es[k].ProbeSwitch? ==> ProbeEvidence(es[..k]) == {Healthy}
  {
    LegalPrefix(Init(hasFallback, n), es, k);
    EvidenceHeld(hasFallback, n, es[..k]);
    ProbeEvidenceHeld(hasFallback, n, es[..k]);
  }

  // ----- no call is stuck -----

  // How many steps of its own a caller has left at most.
  function StepsLeft(pc: Pc): nat
  {
    match pc
    case Idle => 0
    case TryFallback(_) => 1
    case Unlocking => 2
    case Switching => 3
    case Locked => 4
    case FailureSeen => 5
    case TryPrimary(_) => 6
  }

  /** Every step of a caller inside a call brings that call nearer its end and leaves the others alone. */
  lemma OwnStepsRunOut(s: State, e: Event)
    requires Enabled(s, e) && !IsProbeEvent(e) && !e.Begin?
    ensures StepsLeft(Step(s, e).callers[e.i]) < StepsLeft(s.callers[e.i])
    ensures forall j :: 0 <= j < |s.callers| && j != e.i ==> Step(s, e).callers[j] == s.callers[j]
  {
  }

  // The next step of whoever holds the lock.
  function HolderStep(s: State): Event
    requires s.lock.Held?
  {
    match s.lock.holder
    case Caller(i) =>
      if At(s, i, Locked) then Recheck(i) else if At(s, i, Switching) then Switch(i) else Release(i)
    case Probe =>
      if s.probe.ProbeLocked? then ProbeRecheck else if s.probe.ProbeSwitching? then ProbeSwitch else ProbeRelease
  }

  function HolderStepsLeft(s: State): nat
  {
    match s.lock
    case Free => 0
    case Held(Caller(i)) => if i < |s.callers| then StepsLeft(s.callers[i]) else 0
    case Held(Probe) => if s.probe.ProbeLocked? then 3 else if s.probe.ProbeSwitching? then 2 else 1
  }

  /** Whoever holds the lock can take its next step, and is then nearer to releasing it. */
  lemma HolderMoves(s: State)
    requires Inv(s) && s.lock.Held?
    ensures Enabled(s, HolderStep(s))
    ensures HolderStepsLeft(Step(s, HolderStep(s))) < HolderStepsLeft(s)
  {
    if s.lock.holder.Caller? { assert CallerOk(s, s.lock.holder.i); }
  }

  // The events the holder takes until the lock is free.
  function Unlock(s: State): seq<Event>
    requires Inv(s)
    decreases HolderStepsLeft(s)
  {
    if s.lock.Free? then []
    else
      HolderMoves(s);
      StepInv(s, HolderStep(s));
      [HolderStep(s)] + Unlock(Step(s, HolderStep(s)))
  }

  /** From every reachable state the holder alone can release the lock, in at most four steps. */
  lemma {:induction false} LockIsReleased(s: State)
    requires Inv(s)
    ensures Legal(s, Unlock(s)) && Exec(s, Unlock(s)).lock.Free? && |Unlock(s)| <= HolderStepsLeft(s) <= 4
    decreases HolderStepsLeft(s)
  {
    if s.lock.Held? {
      HolderMoves(s);
      var e := HolderStep(s);
      StepInv(s, e);
      LockIsReleased(Step(s, e));
      OneEvent(s, e);
      ExecAppend(s, [e], Unlock(Step(s, e)));
      HolderBound(s);
    }
  }

  lemma HolderBound(s: State)
    requires Inv(s)
    ensures HolderStepsLeft(s) <= 4
  {
    if s.lock.Held? && s.lock.holder.Caller? { assert CallerOk(s, s.lock.holder.i); }
  }

  lemma OneEvent(s: State, e: Event)
    requires Enabled(s, e)
    ensures Legal(s, [e]) && Exec(s, [e]) == Step(s, e)
  {
    ExecSnoc(s, [], e);
    assert [] + [e] == [e];
  }

  /** In every reachable state with a call in progress the caller itself can move, or it waits for a lock
      whose holder can. */
  lemma NoDeadlock(s: State, i: nat)
    requires Inv(s) && i < |s.callers| && !s.callers[i].Idle?
    ensures (exists e :: Enabled(s, e) && !IsProbeEvent(e) && !e.Begin? && e.i == i)
      || (s.callers[i].FailureSeen? && s.lock.Held? && Enabled(s, HolderStep(s)))
  {
    assert CallerOk(s, i);
    match s.callers[i]
    case TryPrimary(sid) => assert Enabled(s, PrimaryQuery(i, Healthy));
    case FailureSeen => if s.lock.Free? { assert Enabled(s, Acquire(i)); } else { HolderMoves(s); }
    case Locked => assert Enabled(s, Recheck(i));
    case Switching => assert Enabled(s, Switch(i));
    case Unlocking => assert Enabled(s, Release(i));
    case TryFallback(sid) => assert Enabled(s, FallbackQuery(i, Healthy));
  }

  // ----- flapping is bounded -----

  function Pending(s: State): nat { CountIf(IsPending, s.callers) }

  predicate IsSwitch(e: Event) { e.Switch? }

  predicate IsPrimaryFailure(e: Event) { e.PrimaryQuery? && e.outcome == OperationalError }

  lemma PendingStep(s: State, e: Event)
    requires Enabled(s, e)
    ensures Pending(Step(s, e)) + (if IsSwitch(e) then 1 else 0)
         <= Pending(s) + (if IsPrimaryFailure(e) then 1 else 0)
  {
    if !IsProbeEvent(e) {
      var t := Step(s, e);
      CountUpdate(IsPending, s.callers, e.i, t.callers[e.i]);
      assert t.callers == s.callers[e.i := t.callers[e.i]];
    }
  }

  /** Every switch to the fallback uses up one observed primary failure, and no failure is used
      twice: a conservation law over any stretch of any run. */
  lemma {:induction false} SwitchesSpendFailures(s: State, es: seq<Event>)
    requires Legal(s, es)
    ensures CountIf(IsSwitch, es) + Pending(Exec(s, es)) <= Pending(s) + CountIf(IsPrimaryFailure, es)
  {
    if es != [] {
      var pre := es[..|es| - 1];
      SwitchesSpendFailures(s, pre);
      PendingStep(Exec(s, pre), es[|es| - 1]);
    }
  }

  predicate PrimaryStaysUp(es: seq<Event>)
  {
    forall k :: 0 <= k < |es| && es[k].PrimaryQuery? ==> es[k].outcome == Healthy
  }

  /** From any state of any run on, if no caller's primary query fails any more, the number of
      switches to the fallback is at most the number of callers that already hold a failure. */
  lemma {:induction false} FlappingBounded(s: State, es: seq<Event>)
    requires Legal(s, es) && PrimaryStaysUp(es)
    ensures CountIf(IsSwitch, es) <= Pending(s)
  {
    SwitchesSpendFailures(s, es);
    CountZero(IsPrimaryFailure, es);
  }

  lemma {:induction false} NoPendingNoReturn(s: State, es: seq<Event>)
    requires Legal(s, es) && PrimaryStaysUp(es) && Pending(s) == 0 && s.active == Primary
    ensures Exec(s, es).active == Primary
  {
    if es != [] {
      NoPendingNoReturn(s, es[..|es| - 1]);
      FlappingBounded(s, es);
    }
  }

  /** Once no caller holds an old failure and primary queries succeed, the end of one probe round
      puts the flag on the primary, and no continuation of the run takes it away again. */
  lemma {:induction false} RecoveryIsPermanent(s: State, es: seq<Event>, rest: seq<Event>)
    requires Inv(s) && Pending(s) == 0
    requires Legal(s, es + [ProbeRelease] + rest) && PrimaryStaysUp(es) && PrimaryStaysUp(rest)
    ensures Exec(s, es + [ProbeRelease] + rest).active == Primary
  {
    ExecAppend(s, es + [ProbeRelease], rest);
    ExecAppend(s, es, [ProbeRelease]);
    Drained(s, es);
    ProbeRoundDone(s, es);
    NoPendingNoReturn(Exec(s, es + [ProbeRelease]), rest);
  }

  lemma ProbeRoundDone(s: State, es: seq<Event>)
    requires Inv(s) && Legal(s, es) && Legal(s, es + [ProbeRelease]) && Pending(Exec(s, es)) == 0
    ensures Exec(s, es + [ProbeRelease]).active == Primary
    ensures Pending(Exec(s, es + [ProbeRelease])) == 0
  {
    RunInv(s, es);
    assert (es + [ProbeRelease])[..|es|] == es;
    ExecSnoc(s, es, ProbeRelease);
  }

  lemma Drained(s: State, es: seq<Event>)
    requires Legal(s, es) && PrimaryStaysUp(es) && Pending(s) == 0
    ensures Pending(Exec(s, es)) == 0
  {
    SwitchesSpendFailures(s, es);
    CountZero(IsPrimaryFailure, es);
  }

  // ----- the bound is reached -----

  // n callers see the primary fail before any of them takes the lock.
  function Outage(n: nat): seq<Event>
  {
    if n == 0 then [] else Outage(n - 1) + [Begin(n - 1), PrimaryQuery(n - 1, OperationalError)]
  }

  // Caller i acts on its old failure, then the probe undoes it.
  function Flap(i: nat): seq<Event>
  {
    [Acquire(i), Recheck(i), Switch(i), Release(i),
     ProbeWake, ProbeQuery(Healthy), ProbeAcquire, ProbeRecheck, ProbeSwitch, ProbeRelease]
  }

  function Flaps(n: nat): seq<Event>
  {
    if n == 0 then [] else Flaps(n - 1) + Flap(n - 1)
  }

  predicate Quiet(s: State, n: nat)
  {
    s.hasFallback && s.active == Primary && s.lock.Free? && s.probe.Asleep? && |s.callers| == n
  }

  lemma {:induction false} OutageReached(n: nat, k: nat)
    requires k <= n
    ensures var s := Exec(Init(true, n), Outage(k));
      Legal(Init(true, n), Outage(k)) && Quiet(s, n) &&
      (forall i :: 0 <= i < n ==> s.callers[i] == if i < k then FailureSeen else Idle)
  {
    if k > 0 {
      OutageReached(n, k - 1);
      var s := Exec(Init(true, n), Outage(k - 1));
      TwoEvents(s, Begin(k - 1), PrimaryQuery(k - 1, OperationalError));
      ExecAppend(Init(true, n), Outage(k - 1), [Begin(k - 1), PrimaryQuery(k - 1, OperationalError)]);
    }
  }

  lemma FlapOnce(s: State, i: nat)
    requires Quiet(s, |s.callers|) && At(s, i, FailureSeen)
    ensures var t := Exec(s, Flap(i));
      Legal(s, Flap(i)) && Quiet(t, |s.callers|) &&
      (forall j :: 0 <= j < |s.callers| && j != i ==> t.callers[j] == s.callers[j])
    ensures CountIf(IsSwitch, Flap(i)) == 1 && PrimaryStaysUp(Flap(i))
  {
    var es := [Acquire(i), Recheck(i), Switch(i), Release(i)];
    SwitchAndRelease(s, i);
    ProbeUndoes(Exec(s, es));
    ExecAppend(s, es, ProbeRound());
    assert Flap(i) == es + ProbeRound();
    OneSwitch(i);
  }

  lemma SwitchAndRelease(s: State, i: nat)
    requires Quiet(s, |s.callers|) && At(s, i, FailureSeen)
    ensures var es := [Acquire(i), Recheck(i), Switch(i), Release(i)];
      Legal(s, es) && Exec(s, es) == OpenSession(s.(active := Fallback), i, Fallback)
  {
    TwoEvents(s, Acquire(i), Recheck(i));
    var s2 := MoveTo(s.(lock := Held(Caller(i))), i, Switching);
    assert Exec(s, [Acquire(i), Recheck(i)]) == s2;
    TwoEvents(s2, Switch(i), Release(i));
    FourEvents(s, Acquire(i), Recheck(i), Switch(i), Release(i));
  }

  lemma FourEvents(s: State, a: Event, b: Event, c: Event, d: Event)
    ensures Exec(s, [a, b, c, d]) == Exec(Exec(s, [a, b]), [c, d])
    ensures Legal(s, [a, b]) && Legal(Exec(s, [a, b]), [c, d]) ==> Legal(s, [a, b, c, d])
  {
    ExecAppend(s, [a, b], [c, d]);
    assert [a, b] + [c, d] == [a, b, c, d];
  }

  function ProbeRound(): seq<Event>
  {
    [ProbeWake, ProbeQuery(Healthy), ProbeAcquire, ProbeRecheck, ProbeSwitch, ProbeRelease]
  }

  lemma ProbeUndoes(s: State)
    requires s.hasFallback && s.active == Fallback && s.lock.Free? && s.probe.Asleep?
    ensures Legal(s, ProbeRound()) && Exec(s, ProbeRound()) == s.(active := Primary)
  {
    var head := [ProbeWake, ProbeQuery(Healthy), ProbeAcquire, ProbeRecheck];
    TwoEvents(s, ProbeWake, ProbeQuery(Healthy));
    var s2 := s.(probe := Recovered);
    TwoEvents(s2, ProbeAcquire, ProbeRecheck);
    FourEvents(s, ProbeWake, ProbeQuery(Healthy), ProbeAcquire, ProbeRecheck);
    var s4 := s.(lock := Held(Probe), probe := ProbeSwitching);
    TwoEvents(s4, ProbeSwitch, ProbeRelease);
    ExecAppend(s, head, [ProbeSwitch, ProbeRelease]);
    assert head + [ProbeSwitch, ProbeRelease] == ProbeRound();
  }

  lemma OneSwitch(i: nat)
    ensures CountIf(IsSwitch, Flap(i)) == 1
  {
    var es := Flap(i);
    assert es == es[..2] + [es[2]] + es[3..];
    CountAppend(IsSwitch, es[..2] + [es[2]], es[3..]);
    CountAppend(IsSwitch, es[..2], [es[2]]);
    CountZero(IsSwitch, es[..2]);
    CountZero(IsSwitch, es[3..]);
    assert [es[2]][..0] == [];
  }

  lemma {:induction false} FlapsRun(s: State, k: nat)
    requires Quiet(s, |s.callers|) && k <= |s.callers|
    requires forall i :: 0 <= i < |s.callers| ==> s.callers[i].FailureSeen?
    ensures var t := Exec(s, Flaps(k));
      Legal(s, Flaps(k)) && Quiet(t, |s.callers|) &&
      (forall i :: k <= i < |s.callers| ==> t.callers[i].FailureSeen?)
  {
    if k > 0 {
      FlapsRun(s, k - 1);
      FlapOnce(Exec(s, Flaps(k - 1)), k - 1);
      FlapsSplit(s, Flaps(k - 1), Flap(k - 1), k);
    }
  }

  lemma FlapsSplit(s: State, before: seq<Event>, flap: seq<Event>, k: nat)
    requires k > 0 && before == Flaps(k - 1) && flap == Flap(k - 1)
    requires Legal(s, before) && Legal(Exec(s, before), flap)
    ensures Legal(s, Flaps(k)) && Exec(s, Flaps(k)) == Exec(Exec(s, before), flap)
  {
    ExecAppend(s, before, flap);
  }

  lemma {:induction false} FlapsCount(k: nat)
    ensures CountIf(IsSwitch, Flaps(k)) == k && PrimaryStaysUp(Flaps(k))
  {
    if k > 0 {
      FlapsCount(k - 1);
      OneSwitch(k - 1);
      CountAppend(IsSwitch, Flaps(k - 1), Flap(k - 1));
    }
  }

  /** The bound of FlappingBounded cannot be improved: for every n there is a run in which n callers
      see one outage, the primary then never fails again, and the flag still goes to the fallback n
      times. */
  lemma {:induction false} FlappingBoundIsTight(n: nat)
    ensures var s := Exec(Init(true, n), Outage(n));
      && Legal(Init(true, n), Outage(n) + Flaps(n))
      && PrimaryStaysUp(Flaps(n))
      && Pending(s) == n
      && CountIf(IsSwitch, Flaps(n)) == n
  {
    OutageReached(n, n);
    var s := Exec(Init(true, n), Outage(n));
    FlapsRun(s, n);
    FlapsCount(n);
    ExecAppend(Init(true, n), Outage(n), Flaps(n));
    FlappingBounded(s, Flaps(n));
    PendingAtMost(s.callers);
  }

  lemma {:induction false} PendingAtMost(pcs: seq<Pc>)
    ensures CountIf(IsPending, pcs) <= |pcs|
  {
    if pcs != [] {
      PendingAtMost(pcs[..|pcs| - 1]);
    }
  }

  // ----- no session is lost, except to an uncaught error -----

  predicate IsOpen(x: Session) { x.status == Open }

  predicate InQuery(pc: Pc) { pc.TryPrimary? || pc.TryFallback? }

  predicate IsUncaught(e: Event) { e.PrimaryQuery? && e.outcome == OtherError }

  /** At every point of every run the sessions still open are those of the callers at a health
      query, plus one for each primary query that raised something other than OperationalError. */
  lemma {:induction false} OpenSessionsConserved(hasFallback: bool, n: nat, es: seq<Event>)
    requires Legal(Init(hasFallback, n), es)
    ensures var s := Exec(Init(hasFallback, n), es);
      CountIf(IsOpen, s.sessions) == CountIf(InQuery, s.callers) + CountIf(IsUncaught, es)
  {
    if es == [] {
      CountZero(InQuery, Init(hasFallback, n).callers);
    } else {
      var pre := es[..|es| - 1];
      OpenSessionsConserved(hasFallback, n, pre);
      RunInv(Init(hasFallback, n), pre);
      SessionStep(Exec(Init(hasFallback, n), pre), es[|es| - 1]);
    }
  }

  lemma SessionStep(s: State, e: Event)
    requires Inv(s) && Enabled(s, e)
    ensures var t := Step(s, e);
      CountIf(IsOpen, t.sessions) + CountIf(InQuery, s.callers)
      == CountIf(IsOpen, s.sessions) + CountIf(InQuery, t.callers) + (if IsUncaught(e) then 1 else 0)
  {
    var t := Step(s, e);
    if !IsProbeEvent(e) {
      assert CallerOk(s, e.i);
      assert t.callers == s.callers[e.i := t.callers[e.i]];
      CountUpdate(InQuery, s.callers, e.i, t.callers[e.i]);
      SessionTable(s, e);
    }
  }

  // An event appends one session, settles one that was open, or leaves the table alone.
  lemma SessionTable(s: State, e: Event)
    requires Enabled(s, e) && !IsProbeEvent(e) && e.i < |s.callers| && CallerOk(s, e.i)
    ensures CountIf(IsOpen, Step(s, e).sessions) == CountIf(IsOpen, s.sessions) +
      match e {
        case Begin(_) => if s.hasFallback then 1 else 0
        case Release(_) => 1
        case PrimaryQuery(_, outcome) => if outcome == OtherError then 0 else -1
        case FallbackQuery(_, _) => -1
        case _ => 0
      }
  {
    var t := Step(s, e);
    match e
    case Begin(_) => CountOneMore(s.sessions, t.sessions[|s.sessions|]);
    case Release(_) => CountOneMore(s.sessions, t.sessions[|s.sessions|]);
    case PrimaryQuery(i, outcome) =>
      if outcome != OtherError {
        CountUpdate(IsOpen, s.sessions, s.callers[i].sid, t.sessions[s.callers[i].sid]);
      }
    case FallbackQuery(i, _) =>
      CountUpdate(IsOpen, s.sessions, s.callers[i].sid, t.sessions[s.callers[i].sid]);
    case _ =>
  }

  lemma CountOneMore(sessions: seq<Session>, x: Session)
    ensures CountIf(IsOpen, sessions + [x]) == CountIf(IsOpen, sessions) + if IsOpen(x) then 1 else 0
  {
    assert (sessions + [x])[..|sessions|] == sessions;
  }

  /** When no call is in progress, every session has been handed out or closed if and only if no
      primary query in the run raised an error other than OperationalError. */
  lemma {:induction false} NoLeakIffErrorsAreOperational(hasFallback: bool, n: nat, es: seq<Event>)
    requires Legal(Init(hasFallback, n), es)
    requires forall i :: 0 <= i < n ==> At(Exec(Init(hasFallback, n), es), i, Idle)
    ensures AllSettled(Exec(Init(hasFallback, n), es).sessions) <==> OnlyOperational(es)
  {
    var s := Exec(Init(hasFallback, n), es);
    InitInv(hasFallback, n);
    RunInv(Init(hasFallback, n), es);
    OpenSessionsConserved(hasFallback, n, es);
    forall i | 0 <= i < |s.callers|
      ensures !InQuery(s.callers[i])
    {
      assert At(s, i, Idle);
    }
    CountZero(InQuery, s.callers);
    SettledIffNoneOpen(s.sessions);
    OperationalIffNoneUncaught(es);
  }

  // Every session has been handed to its caller or closed.
  predicate AllSettled(sessions: seq<Session>)
  {
    forall k :: 0 <= k < |sessions| ==> sessions[k].status != Open
  }

  predicate OnlyOperational(es: seq<Event>)
  {
    forall k :: 0 <= k < |es| && es[k].PrimaryQuery? ==> es[k].outcome != OtherError
  }

  lemma SettledIffNoneOpen(sessions: seq<Session>)
    ensures AllSettled(sessions) <==> CountIf(IsOpen, sessions) == 0
  {
    CountZero(IsOpen, sessions);
    assert forall k :: 0 <= k < |sessions| ==> (IsOpen(sessions[k]) <==> sessions[k].status == Open);
  }

  lemma OperationalIffNoneUncaught(es: seq<Event>)
    ensures OnlyOperational(es) <==> CountIf(IsUncaught, es) == 0
  {
    CountZero(IsUncaught, es);
    assert forall k :: 0 <= k < |es| ==> (IsUncaught(es[k]) <==> es[k].PrimaryQuery? && es[k].outcome == OtherError);
  }
}

/** The factory itself, called by one thread at a time. */
module FailoverFactory {
  import opened FailoverProtocol

  datatype CallResult =
    | Handed(sid: nat)
    | Raised(engine: Engine, outcome: Outcome)

  // One call, not interleaved with anything, as events of the protocol.
  function CallSchedule(hasFallback: bool, active: Engine, primary: Outcome, fallback: Outcome): seq<Event>
  {
    if !hasFallback then [Begin(0)]
    else if active == Fallback then [Begin(0), FallbackQuery(0, fallback)]
    else if primary == OperationalError then
      [Begin(0), PrimaryQuery(0, primary)] + [Acquire(0), Recheck(0), Switch(0)]
      + [Release(0), FallbackQuery(0, fallback)]
    else [Begin(0), PrimaryQuery(0, primary)]
  }

  function ProbeSchedule(active: Engine, outcome: Outcome): seq<Event>
  {
    if active == Primary then [ProbeWake]
    else if outcome == Healthy then ProbeRound()
    else [ProbeWake, ProbeQuery(outcome)]
  }

  // What the caller sees, read off the outcomes alone.
  function Verdict(hasFallback: bool, active: Engine, primary: Outcome, fallback: Outcome, sid: nat): CallResult
  {
    if !hasFallback then Handed(sid)
    else if active == Primary && primary == Healthy then Handed(sid)
    else if active == Primary && primary == OtherError then Raised(Primary, primary)
    else
      var mine := if active == Primary then sid + 1 else sid;
      if fallback == Healthy then Handed(mine) else Raised(Fallback, fallback)
  }

  class FailoverSessionFactory {
    const hasFallback: bool
    var active: Engine
    var sessions: seq<Session>

    constructor (hasFallback: bool)
      ensures this.hasFallback == hasFallback
      ensures AsState() == Init(hasFallback, 1)
    {
      this.hasFallback := hasFallback;
      active := Primary;
      sessions := [];
    }

    ghost function AsState(): State
      reads this
    {
      State(hasFallback, active, Free, [Idle], Asleep, sessions)
    }

    ghost predicate Valid()
      reads this
    {
      active == Fallback ==> hasFallback
    }

    method Open(engine: Engine) returns (sid: nat)
      modifies this`sessions
      ensures sid == |old(sessions)|
      ensures sessions == old(sessions) + [Session(engine, 0, Status.Open, false)]
    {
      sid := |sessions|;
      sessions := sessions + [Session(engine, 0, Status.Open, false)];
    }

    method Settle(sid: nat, status: Status, outcome: Outcome)
      requires sid < |sessions|
      modifies this`sessions
      ensures AsState() == FailoverProtocol.Settle(old(AsState()), sid, status, outcome)
    {
      sessions := sessions[sid := sessions[sid].(status := status, healthy := outcome == Healthy)];
    }

    // Opens a fallback session, queries it, and hands it out or closes it and re-raises.
    method UseFallback(fallback: Outcome) returns (r: CallResult)
      modifies this`sessions
      ensures sessions == old(sessions) +
        [Session(Fallback, 0, if fallback == Healthy then Returned else Closed, fallback == Healthy)]
      ensures r == if fallback == Healthy then Handed(|old(sessions)|) else Raised(Fallback, fallback)
    {
      var sid := Open(Fallback);
      if fallback == Healthy {
        Settle(sid, Returned, fallback);
        return Handed(sid);
      }
      Settle(sid, Closed, fallback);
      return Raised(Fallback, fallback);
    }

    /** A call does what the protocol's uninterrupted schedule does and never leaves the fallback active
        where none is configured.  The caller gets the last session opened if its query succeeded or there
        is no fallback, and otherwise the error of that session's query.  The flag changes, and a second
        session is opened, exactly when the primary's query raised an OperationalError; a session with any
        other error on the primary stays open. */
    method Call(primary: Outcome, fallback: Outcome) returns (r: CallResult)
      requires Valid()
      modifies this
      ensures Valid()
      ensures Legal(old(AsState()), CallSchedule(hasFallback, old(active), primary, fallback))
      ensures AsState() == Exec(old(AsState()), CallSchedule(hasFallback, old(active), primary, fallback))
      ensures r == Verdict(hasFallback, old(active), primary, fallback, |old(sessions)|)
      ensures r.Handed? ==> r.sid < |sessions| && sessions[r.sid].status == Returned
                            && sessions[r.sid].engine == active
                            && (hasFallback ==> sessions[r.sid].healthy)
      ensures r.Handed? <==>
        || !hasFallback
        || (old(active) == Primary && primary == Healthy)
        || ((old(active) == Fallback || primary == OperationalError) && fallback == Healthy)
      ensures var failsOver := hasFallback && old(active) == Primary && primary == OperationalError;
        && active == (if failsOver then Fallback else old(active))
        && |sessions| == |old(sessions)| + (if failsOver then 2 else 1)
        && sessions[..|old(sessions)|] == old(sessions)
        && (failsOver ==> var first := sessions[|old(sessions)|]; first.engine == Primary && first.status == Closed)
      ensures var last := sessions[|sessions| - 1];
        && last.engine == active
        && (r.Handed? ==> r.sid == |sessions| - 1)
        && (r.Raised? ==>
              && r.engine == active && last.status == (if active == Primary then Status.Open else Closed)
              && r.outcome == (if active == Primary then primary else fallback) && r.outcome != Healthy)
    {
      ghost var before := AsState();
      ScheduleEffect(before, primary, fallback);
      if !hasFallback {
        var sid := |sessions|;
        sessions := sessions + [Session(Primary, 0, Returned, false)];
        return Handed(sid);
      }
      if active == Fallback {
        r := UseFallback(fallback);
        return;
      }
      var sid := Open(Primary);
      match primary {
        case Healthy =>
          Settle(sid, Returned, primary);
          r := Handed(sid);
        case OtherError =>
          r := Raised(Primary, OtherError);
        case OperationalError =>
          Settle(sid, Closed, primary);
          if active == Primary && hasFallback {
            active := Fallback;
          }
          r := UseFallback(fallback);
      }
    }

    method ProbeOnce(outcome: Outcome)
      requires Valid() && hasFallback
      modifies this`active
      ensures Valid()
      ensures Legal(old(AsState()), ProbeSchedule(old(active), outcome))
      ensures AsState() == Exec(old(AsState()), ProbeSchedule(old(active), outcome))
      ensures active == if outcome == Healthy then Primary else old(active)
    {
      ProbeEffect(AsState(), outcome);
      if active != Fallback { return; }
      if outcome == Healthy {
        if active == Fallback {
          active := Primary;
        }
      }
    }
  }

  predicate Resting(s: State)
  {
    && s.lock.Free? && s.callers == [Idle] && s.probe.Asleep?
    && (s.active == Fallback ==> s.hasFallback)
  }

  // The sessions one uninterrupted call leaves behind.
  function CallSessions(hasFallback: bool, active: Engine, primary: Outcome, fallback: Outcome): seq<Session>
  {
    var second := Session(Fallback, 0, if fallback == Healthy then Returned else Closed, fallback == Healthy);
    if !hasFallback then [Session(Primary, 0, Returned, false)]
    else if active == Fallback then [second]
    else match primary
      case Healthy => [Session(Primary, 0, Returned, true)]
      case OtherError => [Session(Primary, 0, Open, false)]
      case OperationalError => [Session(Primary, 0, Closed, false), second]
  }

  /** The schedule of one call is a run of the protocol, and its effect in closed form. */
  lemma {:induction false} ScheduleEffect(s: State, primary: Outcome, fallback: Outcome)
    requires Resting(s)
    ensures var es := CallSchedule(s.hasFallback, s.active, primary, fallback);
      && Legal(s, es)
      && Exec(s, es) == s.(
           active := if s.hasFallback && s.active == Primary && primary == OperationalError
                     then Fallback else s.active,
           sessions := s.sessions + CallSessions(s.hasFallback, s.active, primary, fallback))
  {
    var es := CallSchedule(s.hasFallback, s.active, primary, fallback);
    if s.hasFallback && s.active == Primary && primary == OperationalError {
      FailsOver(s, fallback);
    } else if s.hasFallback {
      Answers(s, primary, fallback);
    } else {
      assert Exec(s, es[..0]) == s;
      StepAlong(s, es, 0);
      assert es[..|es|] == es;
    }
  }

  // The short paths: one query settles the call.
  lemma Answers(s: State, primary: Outcome, fallback: Outcome)
    requires Resting(s) && s.hasFallback && (s.active == Fallback || primary != OperationalError)
    ensures var es := CallSchedule(true, s.active, primary, fallback);
      && Legal(s, es)
      && Exec(s, es) == s.(sessions := s.sessions + CallSessions(true, s.active, primary, fallback))
  {
    if s.active == Fallback { FallbackAnswers(s, fallback); } else { PrimaryAnswers(s, primary); }
  }

  lemma FallbackAnswers(s: State, fallback: Outcome)
    requires Resting(s) && s.hasFallback && s.active == Fallback
    ensures var es := [Begin(0), FallbackQuery(0, fallback)];
      && Legal(s, es)
      && Exec(s, es) == s.(sessions := s.sessions +
           [Session(Fallback, 0, if fallback == Healthy then Returned else Closed, fallback == Healthy)])
  {
    TwoEvents(s, Begin(0), FallbackQuery(0, fallback));
  }

  lemma PrimaryAnswers(s: State, primary: Outcome)
    requires Resting(s) && s.hasFallback && s.active == Primary && primary != OperationalError
    ensures var es := [Begin(0), PrimaryQuery(0, primary)];
      && Legal(s, es)
      && Exec(s, es) == s.(sessions := s.sessions +
           [Session(Primary, 0, if primary == Healthy then Returned else Status.Open, primary == Healthy)])
  {
    TwoEvents(s, Begin(0), PrimaryQuery(0, primary));
  }

  // The long path: the primary fails, the call switches under the lock and retries.
  lemma FailsOver(s: State, fallback: Outcome)
    requires Resting(s) && s.hasFallback && s.active == Primary
    ensures var es := CallSchedule(true, Primary, OperationalError, fallback);
      && Legal(s, es)
      && Exec(s, es) == s.(active := Fallback,
           sessions := s.sessions + CallSessions(true, Primary, OperationalError, fallback))
  {
    var head := [Begin(0), PrimaryQuery(0, OperationalError)];
    var mid := [Acquire(0), Recheck(0), Switch(0)];
    var tail := [Release(0), FallbackQuery(0, fallback)];
    PrimaryFails(s);
    var s2 := Exec(s, head);
    SwitchUnderLock(s2);
    var s5 := Exec(s2, mid);
    LeaveAndRetry(s5, fallback);
    ThreeParts(s, head, mid, tail);
    SessionsAdded(s, fallback);
  }

  lemma SessionsAdded(s: State, fallback: Outcome)
    ensures s.sessions + [Session(Primary, 0, Closed, false)] +
        [Session(Fallback, 0, if fallback == Healthy then Returned else Closed, fallback == Healthy)]
        == s.sessions + CallSessions(true, Primary, OperationalError, fallback)
  {
  }

  lemma ThreeParts(s: State, head: seq<Event>, mid: seq<Event>, tail: seq<Event>)
    requires Legal(s, head) && Legal(Exec(s, head), mid) && Legal(Exec(Exec(s, head), mid), tail)
    ensures Legal(s, head + mid + tail)
    ensures Exec(s, head + mid + tail) == Exec(Exec(Exec(s, head), mid), tail)
  {
    ExecAppend(s, head, mid);
    ExecAppend(s, head + mid, tail);
  }

  lemma PrimaryFails(s: State)
    requires Resting(s) && s.hasFallback && s.active == Primary
    ensures var es := [Begin(0), PrimaryQuery(0, OperationalError)];
      Legal(s, es) &&
      Exec(s, es) == s.(callers := [FailureSeen],
                        sessions := s.sessions + [Session(Primary, 0, Closed, false)])
  {
    TwoEvents(s, Begin(0), PrimaryQuery(0, OperationalError));
    assert Step(Step(s, Begin(0)), PrimaryQuery(0, OperationalError)).sessions
        == s.sessions + [Session(Primary, 0, Closed, false)];
  }

  lemma SwitchUnderLock(s: State)
    requires s.hasFallback && s.active == Primary && s.lock.Free? && s.callers == [FailureSeen]
    ensures var es := [Acquire(0), Recheck(0), Switch(0)];
      Legal(s, es) &&
      Exec(s, es) == s.(active := Fallback, lock := Held(Caller(0)), callers := [Unlocking])
  {
    var es := [Acquire(0), Recheck(0), Switch(0)];
    assert Exec(s, es[..0]) == s;
    StepAlong(s, es, 0);
    StepAlong(s, es, 1);
    StepAlong(s, es, 2);
    assert es[..3] == es;
  }

  lemma LeaveAndRetry(s: State, fallback: Outcome)
    requires s.callers == [Unlocking]
    ensures var es := [Release(0), FallbackQuery(0, fallback)];
      Legal(s, es) &&
      Exec(s, es) == s.(lock := Free, callers := [Idle], sessions := s.sessions +
        [Session(Fallback, 0, if fallback == Healthy then Returned else Closed, fallback == Healthy)])
  {
    TwoEvents(s, Release(0), FallbackQuery(0, fallback));
    assert Step(Step(s, Release(0)), FallbackQuery(0, fallback)).sessions == s.sessions +
        [Session(Fallback, 0, if fallback == Healthy then Returned else Closed, fallback == Healthy)];
  }

  lemma ProbeEffect(s: State, outcome: Outcome)
    requires Resting(s) && s.hasFallback
    ensures var es := ProbeSchedule(s.active, outcome);
      Legal(s, es) && Exec(s, es) == s.(active := if outcome == Healthy then Primary else s.active)
  {
    var es := ProbeSchedule(s.active, outcome);
    assert Exec(s, es[..0]) == s;
    if s.active == Fallback && outcome == Healthy {
      ProbeUndoes(s);
    } else {
      StepAlong(s, es, 0);
      if s.active == Fallback { StepAlong(s, es, 1); }
      assert es[..|es|] == es;
    }
  }
}
