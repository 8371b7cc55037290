/**
 * The process-wide engine slot (rust/core/src/lib.rs): any number of threads
 * inside `start`, `stop` and `status`, one step at a time, around one mutex.
 */
module Slot {
  import opened Util

  type Thread = nat
  type EngineId = nat

  datatype Result =
    | Launched(engine: EngineId)
    | AlreadyRunning
    | BringUpFailed
    | Stopped(taken: Option<EngineId>)
    | Status(running: bool)

  datatype Op = Start | Stop | GetStatus

  function OpOf(r: Result): Op {
    match r
    case Launched(_) => Start
    case AlreadyRunning => Start
    case BringUpFailed => Start
    case Stopped(_) => Stop
    case Status(_) => GetStatus
  }

  /** Where a thread stands. */
  datatype Call =
    | Idle
    | Waiting(op: Op)         // called, not yet at the mutex
    | Holding(op: Op)         // mutex taken, slot not looked at
    | BringingUp              // `Engine::start` under the mutex
    | Leaving(result: Result) // mutex released with the result decided
  {
    predicate HoldsLock() {
      Holding? || BringingUp?
    }
  }

  /** The history of the entry points, in real-time order. */
  datatype Entry =
    | Called(thread: Thread, op: Op)
    | TookEffect(thread: Thread, result: Result)
    | Returned(thread: Thread, result: Result)

  datatype Shared = Shared(
    lock: Option<Thread>,
    slot: Option<EngineId>,
    engines: nat,              // engines published so far
    running: set<EngineId>,    // engines whose own status says running
    cancelled: set<EngineId>)  // engines whose token is cancelled

  datatype State = State(shared: Shared, threads: map<Thread, Call>, log: seq<Entry>)

  const START := State(Shared(None, None, 0, {}, {}), map[], [])

  datatype Step =
    | Call(op: Op)
    | Lock
    | Refuse          // start finds an engine
    | Begin           // start finds none
    | FailBringUp
    | Publish
    | Take
    | Report
    | Return
    | CancelToken(engine: EngineId)  // IPC stop, a handle, or a task that died

  function At(s: State, t: Thread): Call {
    if t in s.threads then s.threads[t] else Idle
  }

  predicate Enabled(sh: Shared, c: Call, e: Step) {
    match e
    case Call(_) => c.Idle?
    case Lock => c.Waiting? && sh.lock.None?
    case Refuse => c == Holding(Start) && sh.slot.Some?
    case Begin => c == Holding(Start) && sh.slot.None?
    case FailBringUp | Publish => c.BringingUp?
    case Take => c == Holding(Stop)
    case Report => c == Holding(GetStatus)
    case Return => c.Leaving?
    case CancelToken(g) => g < sh.engines
  }

  /** Effect of a step on what the threads share. */
  function Effect(sh: Shared, t: Thread, c: Call, e: Step): Shared
    requires Enabled(sh, c, e)
  {
    match e
    case Call(_) => sh
    case Lock => sh.(lock := Some(t))
    case Refuse | FailBringUp | Report => sh.(lock := None)
    case Begin => sh
    case Publish =>
      sh.(lock := None, slot := Some(sh.engines), engines := sh.engines + 1, running := sh.running + {sh.engines})
    case Take => sh.(lock := None, slot := None)
    case Return =>
      if c.result.Stopped? && c.result.taken.Some? then
        sh.(running := sh.running - {c.result.taken.value}, cancelled := sh.cancelled + {c.result.taken.value})
      else sh
    case CancelToken(g) => sh.(cancelled := sh.cancelled + {g})
  }

  /** What a step decides, if it is the one that takes effect. */
  function Decides(sh: Shared, e: Step): Option<Result> {
    match e
    case Refuse => Some(AlreadyRunning)
    case FailBringUp => Some(BringUpFailed)
    case Publish => Some(Launched(sh.engines))
    case Take => Some(Stopped(sh.slot))
    case Report => Some(Status(sh.slot.Some? && sh.slot.value in sh.running))
    case _ => None
  }

  function NextCall(sh: Shared, c: Call, e: Step): Call
    requires Enabled(sh, c, e)
  {
    match e
    case Call(op) => Waiting(op)
    case Lock => Holding(c.op)
    case Begin => BringingUp
    case Return => Idle
    case CancelToken(_) => c
    case _ => Leaving(Decides(sh, e).value)
  }

  function Entries(sh: Shared, t: Thread, c: Call, e: Step): seq<Entry>
    requires Enabled(sh, c, e)
  {
    match e
    case Call(op) => [Called(t, op)]
    case Return => [Returned(t, c.result)]
    case _ => if Decides(sh, e).Some? then [TookEffect(t, Decides(sh, e).value)] else []
  }

  function Apply(s: State, t: Thread, e: Step): State
    requires Enabled(s.shared, At(s, t), e)
  {
    var c := At(s, t);
    State(Effect(s.shared, t, c, e), s.threads[t := NextCall(s.shared, c, e)], s.log + Entries(s.shared, t, c, e))
  }

  datatype Event = Event(thread: Thread, step: Step)

  predicate ValidRun(s: State, events: seq<Event>)
    decreases |events|
  {
    events == [] ||
    (Enabled(s.shared, At(s, events[0].thread), events[0].step)
     && ValidRun(Apply(s, events[0].thread, events[0].step), events[1..]))
  }

  function Run(s: State, events: seq<Event>): State
    requires ValidRun(s, events)
    decreases |events|
  {
    if events == [] then s else Run(Apply(s, events[0].thread, events[0].step), events[1..])
  }

  // ---- Mutual exclusion ------------------------------------------------------

  predicate CallOk(sh: Shared, t: Thread, c: Call) {
    && (c.HoldsLock() ==> sh.lock == Some(t))
    && (c.BringingUp? ==> sh.slot.None?)
    && (c.Leaving? && c.result.Stopped? && c.result.taken.Some? ==>
          c.result.taken.value < sh.engines && sh.slot != c.result.taken)
  }

  predicate SharedOk(sh: Shared) {
    && (sh.slot.Some? ==> sh.slot.value in sh.running && sh.slot.value < sh.engines)
    && (forall g | g in sh.running :: g < sh.engines)
  }

  ghost predicate LockInv(s: State) {
    && SharedOk(s.shared)
    && (forall t: Thread :: CallOk(s.shared, t, At(s, t)))
    && (s.shared.lock.Some? ==> At(s, s.shared.lock.value).HoldsLock())
  }

  lemma ActorOk(sh: Shared, t: Thread, c: Call, e: Step)
    requires SharedOk(sh) && CallOk(sh, t, c) && Enabled(sh, c, e)
    ensures SharedOk(Effect(sh, t, c, e)) && CallOk(Effect(sh, t, c, e), t, NextCall(sh, c, e))
  {
  }

  lemma BystanderOk(sh: Shared, t: Thread, c: Call, e: Step, u: Thread, d: Call)
    requires SharedOk(sh) && CallOk(sh, t, c) && Enabled(sh, c, e) && u != t && CallOk(sh, u, d)
    ensures CallOk(Effect(sh, t, c, e), u, d)
  {
  }

  lemma LockHeld(sh: Shared, t: Thread, c: Call, e: Step)
    requires CallOk(sh, t, c) && Enabled(sh, c, e) && (sh.lock == Some(t) ==> c.HoldsLock())
    ensures var sh' := Effect(sh, t, c, e);
            sh'.lock.Some? ==> if sh'.lock == Some(t) then NextCall(sh, c, e).HoldsLock() else sh'.lock == sh.lock
  {
  }

  lemma StepKeepsLockInv(s: State, t: Thread, e: Step)
    requires LockInv(s) && Enabled(s.shared, At(s, t), e)
    ensures LockInv(Apply(s, t, e))
  {
    var s' := Apply(s, t, e);
    ActorOk(s.shared, t, At(s, t), e);
    LockHeld(s.shared, t, At(s, t), e);
    forall u: Thread
      ensures CallOk(s'.shared, u, At(s', u))
    {
      if u != t {
        BystanderOk(s.shared, t, At(s, t), e, u, At(s, u));
      }
    }
  }

  // ---- Linearizability -------------------------------------------------------

  /** The sequential machine: which results a one-slot object may give, and the slot after them. */
  function Sequential(slot: Option<EngineId>, r: Result): Option<Option<EngineId>> {
    match r
    case Launched(g) => if slot.None? then Some(Some(g)) else None
    case AlreadyRunning => if slot.Some? then Some(slot) else None
    case BringUpFailed => if slot.None? then Some(slot) else None
    case Stopped(taken) => if taken == slot then Some(None) else None
    case Status(running) => if running == slot.Some? then Some(slot) else None
  }

  /** The slot after all effects of a history, if the sequential machine allows them in this order. */
  function Replay(log: seq<Entry>): Option<Option<EngineId>> {
    if log == [] then Some(None)
    else
      var before := Replay(log[..|log| - 1]);
      match log[|log| - 1]
      case TookEffect(_, r) => if before.Some? then Sequential(before.value, r) else None
      case _ => before
  }

  datatype View = Outside | Inside(op: Op) | Decided(result: Result) | Broken

  /** A thread's own history: called, took effect once with a result of that call, returned that result. */
  function ViewOf(log: seq<Entry>, t: Thread): View {
    if log == [] then Outside
    else
      var v := ViewOf(log[..|log| - 1], t);
      var e := log[|log| - 1];
      if e.thread != t then v
      else
        match e
        case Called(_, op) => if v.Outside? then Inside(op) else Broken
        case TookEffect(_, r) => if v == Inside(OpOf(r)) then Decided(r) else Broken
        case Returned(_, r) => if v == Decided(r) then Outside else Broken
  }

  function Expected(c: Call): View {
    match c
    case Idle => Outside
    case Waiting(op) => Inside(op)
    case Holding(op) => Inside(op)
    case BringingUp => Inside(Start)
    case Leaving(r) => Decided(r)
  }

  /** How often engine `g` was launched, and how often it was taken out of the slot. */
  function Launches(log: seq<Entry>, g: EngineId): nat {
    if log == [] then 0
    else
      var e := log[|log| - 1];
      (if e.TookEffect? && e.result == Launched(g) then 1 else 0) + Launches(log[..|log| - 1], g)
  }

  function Takes(log: seq<Entry>, g: EngineId): nat {
    if log == [] then 0
    else
      var e := log[|log| - 1];
      (if e.TookEffect? && e.result == Stopped(Some(g)) then 1 else 0) + Takes(log[..|log| - 1], g)
  }

  ghost predicate LogInv(s: State) {
    && Replay(s.log) == Some(s.shared.slot)
    && (forall t: Thread :: ViewOf(s.log, t) == Expected(At(s, t)))
    && (forall g: EngineId :: Launches(s.log, g) == if g < s.shared.engines then 1 else 0)
    && (forall g: EngineId :: Launches(s.log, g) == Takes(s.log, g) + if s.shared.slot == Some(g) then 1 else 0)
  }

  /** One entry more at the end of the history. */
  lemma AppendedView(log: seq<Entry>, e: Entry, t: Thread)
    ensures ViewOf(log + [e], t)
         == if e.thread != t then ViewOf(log, t)
            else match e
                 case Called(_, op) => if ViewOf(log, t).Outside? then Inside(op) else Broken
                 case TookEffect(_, r) => if ViewOf(log, t) == Inside(OpOf(r)) then Decided(r) else Broken
                 case Returned(_, r) => if ViewOf(log, t) == Decided(r) then Outside else Broken
  {
    assert (log + [e])[..|log + [e]| - 1] == log;
  }

  lemma AppendedReplay(log: seq<Entry>, e: Entry)
    ensures Replay(log + [e])
         == if e.TookEffect? && Replay(log).Some? then Sequential(Replay(log).value, e.result) else Replay(log)
  {
    assert (log + [e])[..|log + [e]| - 1] == log;
  }

  lemma AppendedCounts(log: seq<Entry>, e: Entry, g: EngineId)
    ensures Launches(log + [e], g) == (if e.TookEffect? && e.result == Launched(g) then 1 else 0) + Launches(log, g)
    ensures Takes(log + [e], g) == (if e.TookEffect? && e.result == Stopped(Some(g)) then 1 else 0) + Takes(log, g)
  {
    assert (log + [e])[..|log + [e]| - 1] == log;
  }

  /** A step with an effect moves the slot as the sequential machine says; no other step moves it. */
  lemma EffectIsSequential(sh: Shared, t: Thread, c: Call, e: Step)
    requires SharedOk(sh) && CallOk(sh, t, c) && Enabled(sh, c, e)
    ensures var d := Decides(sh, e);
            if d.Some? then Sequential(sh.slot, d.value) == Some(Effect(sh, t, c, e).slot)
                            && Expected(c) == Inside(OpOf(d.value)) && NextCall(sh, c, e) == Leaving(d.value)
            else Effect(sh, t, c, e).slot == sh.slot
  {
  }

  /** An engine number is used when it is launched, and the slot loses it only to a take. */
  lemma EffectOnEngines(sh: Shared, t: Thread, c: Call, e: Step, g: EngineId)
    requires SharedOk(sh) && CallOk(sh, t, c) && Enabled(sh, c, e)
    ensures var d, sh' := Decides(sh, e), Effect(sh, t, c, e);
            && (d == Some(Launched(g)) ==>
                  g == sh.engines && sh'.engines == g + 1 && sh'.slot == Some(g) && sh.slot.None?)
            && (d == Some(Stopped(Some(g))) ==> sh.slot == Some(g) && sh'.slot.None? && sh'.engines == sh.engines)
            && (d != Some(Launched(g)) && d != Some(Stopped(Some(g))) ==>
                  (g < sh'.engines <==> g < sh.engines) && (sh'.slot == Some(g) <==> sh.slot == Some(g)))
  {
  }

  lemma StepKeepsCounts(s: State, t: Thread, e: Step, g: EngineId)
    requires SharedOk(s.shared) && CallOk(s.shared, t, At(s, t)) && LogInv(s) && Enabled(s.shared, At(s, t), e)
    ensures var s' := Apply(s, t, e);
            && Launches(s'.log, g) == (if g < s'.shared.engines then 1 else 0)
            && Launches(s'.log, g) == Takes(s'.log, g) + if s'.shared.slot == Some(g) then 1 else 0
  {
    hide Replay, ViewOf, Launches, Takes;
    var added := Entries(s.shared, t, At(s, t), e);
    EffectOnEngines(s.shared, t, At(s, t), e, g);
    assert Launches(s.log, g) == if g < s.shared.engines then 1 else 0;
    hide Effect;
    if added != [] {
      AppendedCounts(s.log, added[0], g);
    } else {
      assert s.log + added == s.log;
    }
  }

  lemma StepKeepsView(s: State, t: Thread, e: Step, u: Thread)
    requires SharedOk(s.shared) && CallOk(s.shared, t, At(s, t)) && Enabled(s.shared, At(s, t), e)
    requires ViewOf(s.log, u) == Expected(At(s, u)) && ViewOf(s.log, t) == Expected(At(s, t))
    ensures ViewOf(Apply(s, t, e).log, u) == Expected(At(Apply(s, t, e), u))
  {
    hide ViewOf, Effect;
    var added := Entries(s.shared, t, At(s, t), e);
    EffectIsSequential(s.shared, t, At(s, t), e);
    if added != [] {
      AppendedView(s.log, added[0], u);
    } else {
      assert s.log + added == s.log;
    }
  }

  lemma StepKeepsReplay(s: State, t: Thread, e: Step)
    requires SharedOk(s.shared) && CallOk(s.shared, t, At(s, t)) && Enabled(s.shared, At(s, t), e)
    requires Replay(s.log) == Some(s.shared.slot)
    ensures Replay(Apply(s, t, e).log) == Some(Apply(s, t, e).shared.slot)
  {
    hide Replay;
    var added := Entries(s.shared, t, At(s, t), e);
    EffectIsSequential(s.shared, t, At(s, t), e);
    if added != [] {
      AppendedReplay(s.log, added[0]);
    } else {
      assert s.log + added == s.log;
    }
  }

  lemma StepKeepsLogInv(s: State, t: Thread, e: Step)
    requires LockInv(s) && LogInv(s) && Enabled(s.shared, At(s, t), e)
    ensures LogInv(Apply(s, t, e))
  {
    hide Replay, ViewOf, Launches, Takes, Apply;
    var s' := Apply(s, t, e);
    assert CallOk(s.shared, t, At(s, t));
    StepKeepsReplay(s, t, e);
    forall u: Thread
      ensures ViewOf(s'.log, u) == Expected(At(s', u))
    {
      StepKeepsView(s, t, e, u);
    }
    forall g: EngineId
      ensures Launches(s'.log, g) == if g < s'.shared.engines then 1 else 0
      ensures Launches(s'.log, g) == Takes(s'.log, g) + if s'.shared.slot == Some(g) then 1 else 0
    {
      StepKeepsCounts(s, t, e, g);
    }
  }

  lemma {:induction false} RunKeepsInv(s: State, events: seq<Event>)
    requires LockInv(s) && LogInv(s) && ValidRun(s, events)
    ensures LockInv(Run(s, events)) && LogInv(Run(s, events))
    decreases |events|
  {
    hide LockInv, LogInv, Apply, Enabled;
    if events == [] {
    } else {
      StepKeepsLockInv(s, events[0].thread, events[0].step);
      StepKeepsLogInv(s, events[0].thread, events[0].step);
      RunKeepsInv(Apply(s, events[0].thread, events[0].step), events[1..]);
    }
  }

  lemma StartInv()
    ensures LockInv(START) && LogInv(START)
  {
  }

  /**
   * Linearizability: in every run each call takes effect once, between its call
   * and its return and with the result it returns, and all effects in order are
   * a run of the sequential one-slot machine that ends in the present slot.
   */
  lemma Linearizable(events: seq<Event>)
    requires ValidRun(START, events)
    ensures var s := Run(START, events);
            && Replay(s.log) == Some(s.shared.slot)
            && (forall t: Thread :: !ViewOf(s.log, t).Broken?)
  {
    hide Run, ValidRun, Apply, Replay, ViewOf;
    StartInv();
    RunKeepsInv(START, events);
  }

  /** Every engine ever launched is in the slot or has been taken out of it by exactly one stop. */
  lemma StoppedAtMostOnce(events: seq<Event>, g: EngineId)
    requires ValidRun(START, events)
    ensures var s := Run(START, events);
            && Launches(s.log, g) <= 1
            && Takes(s.log, g) + (if s.shared.slot == Some(g) then 1 else 0) == Launches(s.log, g)
  {
    hide Run, ValidRun, Apply, Launches, Takes;
    StartInv();
    RunKeepsInv(START, events);
  }

  /** At most one thread is inside the mutex, and whoever holds it can always go on. */
  lemma MutexIsExclusiveAndLive(events: seq<Event>, t: Thread, u: Thread)
    requires ValidRun(START, events)
    ensures var s := Run(START, events);
            && (At(s, t).HoldsLock() && At(s, u).HoldsLock() ==> t == u)
            && (s.shared.lock.Some? ==>
                  exists e: Step | !e.CancelToken? :: Enabled(s.shared, At(s, s.shared.lock.value), e))
  {
    hide Run, ValidRun, Apply;
    StartInv();
    RunKeepsInv(START, events);
    var s := Run(START, events);
    if s.shared.lock.Some? {
      var c := At(s, s.shared.lock.value);
      var next :=
        if c.BringingUp? then FailBringUp
        else if c.op.Start? then if s.shared.slot.Some? then Refuse else Begin
        else if c.op.Stop? then Take else Report;
      assert Enabled(s.shared, c, next);
    }
  }

  // ---- A running engine need not be alive ------------------------------------

  lemma RunOne(s: State, t: Thread, e: Step, rest: seq<Event>, s': State)
    requires Enabled(s.shared, At(s, t), e) && Apply(s, t, e) == s'
    ensures ValidRun(s, [Event(t, e)] + rest) <==> ValidRun(s', rest)
    ensures ValidRun(s', rest) ==> Run(s, [Event(t, e)] + rest) == Run(s', rest)
  {
    hide Enabled, Apply;
    assert ([Event(t, e)] + rest)[1..] == rest;
  }

  /** What one undisturbed call of `status` or `start` gives while an engine is in the slot. */
  function Answer(op: Op): Result {
    if op.Start? then AlreadyRunning else Status(true)
  }

  function AfterCall(s: State, t: Thread, op: Op): State {
    State(s.shared, s.threads[t := Idle], s.log + [Called(t, op), TookEffect(t, Answer(op)), Returned(t, Answer(op))])
  }

  function CallEvents(t: Thread, op: Op): seq<Event> {
    [Event(t, Call(op)), Event(t, Lock), Event(t, if op.Start? then Refuse else Report), Event(t, Return)]
  }

  lemma CallOnOccupied(s: State, t: Thread, op: Op, rest: seq<Event>)
    requires SharedOk(s.shared) && At(s, t).Idle? && s.shared.lock.None? && s.shared.slot.Some?
    requires op.GetStatus? || op.Start?
    requires ValidRun(AfterCall(s, t, op), rest)
    ensures ValidRun(s, CallEvents(t, op) + rest)
    ensures Run(s, CallEvents(t, op) + rest) == Run(AfterCall(s, t, op), rest)
  {
    var decide := if op.Start? then Refuse else Report;
    var s1 := Apply(s, t, Call(op));
    var s2 := Apply(s1, t, Lock);
    var s3 := Apply(s2, t, decide);
    var s4 := Apply(s3, t, Return);
    assert s4.log == AfterCall(s, t, op).log;
    assert s4.threads == AfterCall(s, t, op).threads;
    hide Run, ValidRun;
    var r3 := [Event(t, Return)] + rest;
    var r2 := [Event(t, decide)] + r3;
    var r1 := [Event(t, Lock)] + r2;
    RunOne(s3, t, Return, rest, s4);
    RunOne(s2, t, decide, r3, s3);
    RunOne(s1, t, Lock, r2, s2);
    RunOne(s, t, Call(op), r1, s1);
    assert CallEvents(t, op) + rest == [Event(t, Call(op))] + r1;
  }

  /**
   * `status` reports what the slot holds, not whether the engine still works: in
   * every state with an engine in the slot, after its token is cancelled (by the
   * IPC stop request, say) `status` still reports running and `start` still
   * refuses, until somebody calls `stop`.
   */
  lemma CancelledEngineStillOccupies(s: State, t: Thread, g: EngineId) returns (events: seq<Event>, s': State)
    requires LockInv(s) && At(s, t).Idle? && s.shared.lock.None? && s.shared.slot == Some(g)
    ensures ValidRun(s, events) && Run(s, events) == s'
    ensures g in s'.shared.cancelled && s'.shared.slot == Some(g)
    ensures s'.log == s.log + [Called(t, GetStatus), TookEffect(t, Status(true)), Returned(t, Status(true)),
                               Called(t, Start), TookEffect(t, AlreadyRunning), Returned(t, AlreadyRunning)]
  {
    var s1 := Apply(s, t, CancelToken(g));
    assert s1.log == s.log;
    var s2 := AfterCall(s1, t, GetStatus);
    s' := AfterCall(s2, t, Start);
    assert ValidRun(s', []) && Run(s', []) == s';
    hide Run, ValidRun, CallEvents;
    CallOnOccupied(s2, t, Start, []);
    CallOnOccupied(s1, t, GetStatus, CallEvents(t, Start) + []);
    var calls := CallEvents(t, GetStatus) + (CallEvents(t, Start) + []);
    RunOne(s, t, CancelToken(g), calls, s1);
    events := [Event(t, CancelToken(g))] + calls;
  }

  // ---- What a call comes to ----------------------------------------------------

  /** The sequential object, in the words of the source: what an undisturbed call returns, and the slot after it. */
  function Undisturbed(op: Op, slot: Option<EngineId>, bringUpWorks: bool, next: EngineId): (Result, Option<EngineId>) {
    match op
    case Start =>
      if slot.Some? then (AlreadyRunning, slot)
      else if bringUpWorks then (Launched(next), Some(next))
      else (BringUpFailed, None)
    case Stop => (Stopped(slot), None)
    case GetStatus => (Status(slot.Some?), slot)
  }

  /** The steps such a call takes. */
  function Steps(op: Op, slot: Option<EngineId>, bringUpWorks: bool): seq<Step> {
    match op
    case Start =>
      if slot.Some? then [Call(Start), Lock, Refuse, Return]
      else [Call(Start), Lock, Begin, if bringUpWorks then Publish else FailBringUp, Return]
    case Stop => [Call(Stop), Lock, Take, Return]
    case GetStatus => [Call(GetStatus), Lock, Report, Return]
  }

  /** One thread takes these steps. */
  predicate Can(s: State, t: Thread, steps: seq<Step>)
    decreases |steps|
  {
    steps == [] || (Enabled(s.shared, At(s, t), steps[0]) && Can(Apply(s, t, steps[0]), t, steps[1..]))
  }

  function Does(s: State, t: Thread, steps: seq<Step>): State
    requires Can(s, t, steps)
    decreases |steps|
  {
    if steps == [] then s else Does(Apply(s, t, steps[0]), t, steps[1..])
  }

  lemma Does1(s: State, t: Thread, e: Step, rest: seq<Step>)
    requires Enabled(s.shared, At(s, t), e)
    ensures Can(s, t, [e] + rest) <==> Can(Apply(s, t, e), t, rest)
    ensures Can(Apply(s, t, e), t, rest) ==> Does(s, t, [e] + rest) == Does(Apply(s, t, e), t, rest)
  {
    hide Enabled, Apply;
    assert ([e] + rest)[1..] == rest;
  }

  /** Calling and getting the mutex. */
  lemma Admitted(s: State, t: Thread, op: Op, rest: seq<Step>)
    requires At(s, t).Idle? && s.shared.lock.None?
    ensures var inside := State(s.shared.(lock := Some(t)), s.threads[t := Holding(op)], s.log + [Called(t, op)]);
            (Can(s, t, [Call(op), Lock] + rest) <==> Can(inside, t, rest))
            && (Can(inside, t, rest) ==> Does(s, t, [Call(op), Lock] + rest) == Does(inside, t, rest))
  {
    var s1 := Apply(s, t, Call(op));
    var s2 := Apply(s1, t, Lock);
    var inside := State(s.shared.(lock := Some(t)), s.threads[t := Holding(op)], s.log + [Called(t, op)]);
    assert s2.threads == inside.threads && s2.log == inside.log && s2.shared == inside.shared;
    Does1(s, t, Call(op), [Lock] + rest);
    Does1(s1, t, Lock, rest);
    hide Can, Does, Enabled, Apply;
    assert [Call(op), Lock] + rest == [Call(op)] + ([Lock] + rest);
  }

  /** Taking effect with `r` and returning it. */
  lemma Dismissed(s: State, t: Thread, e: Step)
    requires Enabled(s.shared, At(s, t), e) && Decides(s.shared, e).Some?
    ensures var r := Decides(s.shared, e).value;
            && Can(s, t, [e, Return])
            && var done := Does(s, t, [e, Return]);
               && done.log == s.log + [TookEffect(t, r), Returned(t, r)] && At(done, t).Idle?
               && done.shared.slot == Effect(s.shared, t, At(s, t), e).slot && done.shared.lock.None?
               && done.shared.engines == Effect(s.shared, t, At(s, t), e).engines
  {
    var s1 := Apply(s, t, e);
    var s2 := Apply(s1, t, Return);
    assert Can(s2, t, []) && Does(s2, t, []) == s2;
    Does1(s1, t, Return, []);
    Does1(s, t, e, [Return] + []);
    hide Can, Does;
    assert [e] + ([Return] + []) == [e, Return];
  }

  /**
   * In every reachable state, whoever finds the mutex free and is left alone gets through, with the result and the
   * effect of the sequential object; a start on an empty slot really launches.
   */
  lemma UndisturbedCall(events: seq<Event>, t: Thread, op: Op, bringUpWorks: bool)
    requires ValidRun(START, events)
    requires var s := Run(START, events); At(s, t).Idle? && s.shared.lock.None?
    ensures var s := Run(START, events);
            var steps, want := Steps(op, s.shared.slot, bringUpWorks), Undisturbed(op, s.shared.slot, bringUpWorks,
                s.shared.engines);
            && Can(s, t, steps)
            && var d := Does(s, t, steps);
               && d.log == s.log + [Called(t, op), TookEffect(t, want.0), Returned(t, want.0)]
               && d.shared.slot == want.1 && At(d, t).Idle? && d.shared.lock.None?
               && d.shared.engines == s.shared.engines + if want.0.Launched? then 1 else 0
  {
    hide Run, ValidRun;
    StartInv();
    RunKeepsInv(START, events);
    CallGoesThrough(Run(START, events), t, op, bringUpWorks);
  }

  lemma CallGoesThrough(s: State, t: Thread, op: Op, bringUpWorks: bool)
    requires LockInv(s) && At(s, t).Idle? && s.shared.lock.None?
    ensures var steps, want := Steps(op, s.shared.slot, bringUpWorks), Undisturbed(op, s.shared.slot, bringUpWorks,
        s.shared.engines);
            && Can(s, t, steps)
            && var d := Does(s, t, steps);
               && d.log == s.log + [Called(t, op), TookEffect(t, want.0), Returned(t, want.0)]
               && d.shared.slot == want.1 && At(d, t).Idle? && d.shared.lock.None?
               && d.shared.engines == s.shared.engines + if want.0.Launched? then 1 else 0
  {
    assert SharedOk(s.shared);
    hide LockInv, Can, Does;
    if op.Start? && s.shared.slot.None? {
      StartGoesThrough(s, t, bringUpWorks);
    } else {
      var inside := State(s.shared.(lock := Some(t)), s.threads[t := Holding(op)], s.log + [Called(t, op)]);
      var e := if op.Start? then Refuse else if op.Stop? then Take else Report;
      Dismissed(inside, t, e);
      Admitted(s, t, op, [e, Return]);
      assert [Call(op), Lock] + [e, Return] == Steps(op, s.shared.slot, bringUpWorks);
    }
  }

  lemma StartGoesThrough(s: State, t: Thread, works: bool)
    requires At(s, t).Idle? && s.shared.lock.None? && s.shared.slot.None?
    ensures var steps, r := Steps(Start, None, works), if works then Launched(s.shared.engines) else BringUpFailed;
            && Can(s, t, steps)
            && var d := Does(s, t, steps);
               && d.log == s.log + [Called(t, Start), TookEffect(t, r), Returned(t, r)]
               && d.shared.slot == (if works then Some(s.shared.engines) else None)
               && At(d, t).Idle? && d.shared.lock.None?
               && d.shared.engines == s.shared.engines + if works then 1 else 0
  {
    var inside := State(s.shared.(lock := Some(t)), s.threads[t := Holding(Start)], s.log + [Called(t, Start)]);
    var e := if works then Publish else FailBringUp;
    var begun := Apply(inside, t, Begin);
    hide Can, Does;
    Dismissed(begun, t, e);
    Does1(inside, t, Begin, [e, Return]);
    Admitted(s, t, Start, [Begin] + [e, Return]);
    assert [Call(Start), Lock] + ([Begin] + [e, Return]) == Steps(Start, None, works);
  }

  // ---- What a returned stop has done -------------------------------------------

  /** Some call of `stop` that took engine `g` has returned. */
  ghost predicate StopReturned(log: seq<Entry>, g: EngineId) {
    exists t: Thread :: Returned(t, Stopped(Some(g))) in log
  }

  /** Exactly the engines whose stop has not returned still say that they run; the others are cancelled. */
  ghost predicate EnginesInv(s: State) {
    forall g: EngineId ::
      && (g in s.shared.running <==> g < s.shared.engines && !StopReturned(s.log, g))
      && (StopReturned(s.log, g) ==> g < s.shared.engines && g in s.shared.cancelled)
  }

  lemma StepKeepsEngines(s: State, t: Thread, e: Step)
    requires LockInv(s) && EnginesInv(s) && Enabled(s.shared, At(s, t), e)
    ensures EnginesInv(Apply(s, t, e))
  {
    var s' := Apply(s, t, e);
    var added := Entries(s.shared, t, At(s, t), e);
    assert CallOk(s.shared, t, At(s, t));
    forall g: EngineId
      ensures StopReturned(s'.log, g) <==> StopReturned(s.log, g) || (e.Return? && At(s, t).result == Stopped(Some(g)))
    {
      assert s'.log == s.log + added;
      if u: Thread :| Returned(u, Stopped(Some(g))) in s.log {
        assert Returned(u, Stopped(Some(g))) in s'.log;
      }
      if e.Return? && At(s, t).result == Stopped(Some(g)) {
        assert added[0] == Returned(t, Stopped(Some(g))) && added[0] in s'.log;
      }
    }
    hide StopReturned, LockInv;
  }

  lemma {:induction false} RunKeepsEngines(s: State, events: seq<Event>)
    requires LockInv(s) && EnginesInv(s) && ValidRun(s, events)
    ensures EnginesInv(Run(s, events))
    decreases |events|
  {
    hide LockInv, EnginesInv, Apply, Enabled;
    if events == [] {
    } else {
      StepKeepsLockInv(s, events[0].thread, events[0].step);
      StepKeepsEngines(s, events[0].thread, events[0].step);
      RunKeepsEngines(Apply(s, events[0].thread, events[0].step), events[1..]);
    }
  }

  /** An engine runs from its launch to the return of the stop that took it, and then it is cancelled. */
  lemma RunningIff(events: seq<Event>, g: EngineId)
    requires ValidRun(START, events)
    ensures var s := Run(START, events);
            && (g in s.shared.running <==> Launches(s.log, g) == 1 && !StopReturned(s.log, g))
            && (StopReturned(s.log, g) ==> g in s.shared.cancelled && g !in s.shared.running)
  {
    hide Run, ValidRun, Apply, Launches, StopReturned;
    StartInv();
    assert EnginesInv(START) by { NothingReturned(); }
    RunKeepsInv(START, events);
    RunKeepsEngines(START, events);
  }

  lemma NothingReturned()
    ensures forall g: EngineId :: !StopReturned(START.log, g)
  {
  }
}
