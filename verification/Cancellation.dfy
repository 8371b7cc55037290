/**
 * The cancellation token (rust/core/src/runtime.rs): a watch channel seen as a
 * value and a version number, and `cancelled()` as a small program that other
 * tasks' `cancel()` calls may interleave with at every step.
 */
module Cancellation {

  datatype Channel = Channel(value: bool, version: nat)

  /** A task inside `cancelled()`, with the version its own receiver last saw. */
  datatype Waiter =
    | Entering(seen: nat)  // receiver cloned, flag not read yet
    | Checked(seen: nat)   // flag read as false, change not awaited yet
    | Parked(seen: nat)    // waiting for a version other than `seen`
    | Done

  predicate Ready(ch: Channel, w: Waiter) {
    match w
    case Entering(_) | Checked(_) => true
    case Parked(seen) => ch.version != seen
    case Done => false
  }

  function Poll(ch: Channel, w: Waiter): Waiter {
    match w
    case Entering(seen) => if ch.value then Done else Checked(seen)
    case Checked(_) | Parked(_) => if ch.version != w.seen then Done else Parked(w.seen)
    case Done => Done
  }

  // ---- The token as the program holds it ------------------------------------

  /** The shared channel. Every send stores a value and counts one version up. */
  class Watch {
    var state: Channel

    constructor ()
      ensures state == Channel(false, 0)
    {
      state := Channel(false, 0);
    }

    method Send(v: bool)
      modifies this
      ensures state == Channel(v, old(state).version + 1)
    {
      state := Channel(v, state.version + 1);
    }
  }

  /** One clone of the token. Its receiver never marks a version as seen. */
  class Token {
    const channel: Watch
    const seen: nat

    /** Some clone has cancelled. */
    ghost predicate Raised()
      reads channel
    {
      channel.state.value
    }

    constructor ()
      ensures fresh(channel) && channel.state == Channel(false, 0) && seen == 0
    {
      channel := new Watch();
      seen := 0;
    }

    constructor Clone(other: Token)
      ensures channel == other.channel && seen == other.seen
    {
      channel, seen := other.channel, other.seen;
    }

    method Cancel()
      modifies channel
      ensures channel.state == Channel(true, old(channel.state).version + 1)
    {
      channel.Send(true);
    }

    method IsCancelled() returns (r: bool)
      ensures r <==> Raised()
    {
      r := channel.state.value;
    }

    /** `cancelled()` up to the point where it completes or parks, when nothing interferes. */
    method Cancelled() returns (w: Waiter)
      ensures w == Poll(channel.state, Poll(channel.state, Entering(seen)))
    {
      var mine := seen;
      if channel.state.value {
        return Done;
      }
      return if channel.state.version != mine then Done else Parked(mine);
    }
  }

  // ---- Interleavings ---------------------------------------------------------

  /** All clones of one token and all tasks currently inside `cancelled()`. */
  datatype World = World(channel: Channel, tokens: map<nat, nat>, waiters: map<nat, Waiter>)

  datatype Event =
    | CloneToken(from: nat, to: nat)
    | CancelToken(token: nat)
    | Enter(waiter: nat, token: nat)
    | Step(waiter: nat)
    | Abandon(waiter: nat)

  function Fresh(token: nat): World {
    World(Channel(false, 0), map[token := 0], map[])
  }

  predicate Enabled(w: World, e: Event) {
    match e
    case CloneToken(from, to) => from in w.tokens && to !in w.tokens
    case CancelToken(t) => t in w.tokens
    case Enter(i, t) => t in w.tokens && i !in w.waiters
    case Step(i) => i in w.waiters && Ready(w.channel, w.waiters[i])
    case Abandon(i) => i in w.waiters
  }

  function Apply(w: World, e: Event): World
    requires Enabled(w, e)
  {
    match e
    case CloneToken(from, to) => w.(tokens := w.tokens[to := w.tokens[from]])
    case CancelToken(_) => w.(channel := Channel(true, w.channel.version + 1))
    case Enter(i, t) => w.(waiters := w.waiters[i := Entering(w.tokens[t])])
    case Step(i) => w.(waiters := w.waiters[i := Poll(w.channel, w.waiters[i])])
    case Abandon(i) => w.(waiters := w.waiters - {i})
  }

  predicate Inv(w: World) {
    && (w.channel.value <==> w.channel.version > 0)
    && (forall t | t in w.tokens :: w.tokens[t] == 0)
    && (forall i | i in w.waiters :: if w.waiters[i].Done? then w.channel.value else w.waiters[i].seen == 0)
  }

  predicate ValidRun(w: World, events: seq<Event>)
    decreases |events|
  {
    events == [] || (Enabled(w, events[0]) && ValidRun(Apply(w, events[0]), events[1..]))
  }

  function Run(w: World, events: seq<Event>): World
    requires ValidRun(w, events)
    decreases |events|
  {
    if events == [] then w else Run(Apply(w, events[0]), events[1..])
  }

  lemma {:induction false} RunKeepsInv(w: World, events: seq<Event>)
    requires Inv(w) && ValidRun(w, events)
    ensures Inv(Run(w, events))
    ensures w.channel.value ==> Run(w, events).channel.value
    decreases |events|
  {
    if events == [] {
    } else {
      RunKeepsInv(Apply(w, events[0]), events[1..]);
    }
  }

  /**
   * No lost wake-up: in every reachable state where some clone has cancelled,
   * each waiter wherever it stands is ready and completes with its next step,
   * and that stays so however the run goes on.
   */
  lemma NoLostWakeUp(token: nat, events: seq<Event>, later: seq<Event>)
    requires ValidRun(Fresh(token), events)
    requires var w := Run(Fresh(token), events); w.channel.value && ValidRun(w, later)
    ensures var w := Run(Run(Fresh(token), events), later);
            && w.channel.value
            && forall i | i in w.waiters && !w.waiters[i].Done? ::
                 Ready(w.channel, w.waiters[i]) && Poll(w.channel, w.waiters[i]) == Done
  {
    RunKeepsInv(Fresh(token), events);
    RunKeepsInv(Run(Fresh(token), events), later);
  }

  /** A wait completes only when the flag is set, and a parked task is ready only then. */
  lemma OnlyCancelWakes(token: nat, events: seq<Event>)
    requires ValidRun(Fresh(token), events)
    ensures var w := Run(Fresh(token), events);
            forall i | i in w.waiters ::
              && (w.waiters[i].Done? ==> w.channel.value)
              && (w.waiters[i].Parked? ==> (Ready(w.channel, w.waiters[i]) <==> w.channel.value))
  {
    RunKeepsInv(Fresh(token), events);
  }

  // ---- By the history ----------------------------------------------------------

  function Cancels(events: seq<Event>): nat {
    if events == [] then 0 else (if events[0].CancelToken? then 1 else 0) + Cancels(events[1..])
  }

  /** The flag is set exactly if some clone was told to cancel; every cancel counts one version. */
  lemma {:induction false} FlagIsTheHistory(w: World, events: seq<Event>)
    requires ValidRun(w, events)
    ensures Run(w, events).channel.value <==> w.channel.value || exists t :: CancelToken(t) in events
    ensures Run(w, events).channel.version == w.channel.version + Cancels(events)
    decreases |events|
  {
    if events == [] {
    } else {
      var e, tail := events[0], events[1..];
      FlagIsTheHistory(Apply(w, e), tail);
      assert events == [e] + tail;
      if e.CancelToken? {
        assert CancelToken(e.token) in events;
      }
      if t :| CancelToken(t) in tail {
        assert CancelToken(t) in events;
      }
    }
  }

  /**
   * A task that waits on one clone parks while nobody has cancelled, sleeps, and is woken by the cancel of another
   * clone made in the meantime.
   */
  lemma ParksAndWakes(w: World, token: nat, waiter: nat, clone: nat)
    requires Inv(w) && !w.channel.value && token in w.tokens && waiter !in w.waiters && clone !in w.tokens
    ensures var entering := [Enter(waiter, token), Step(waiter), Step(waiter)];
            && ValidRun(w, entering)
            && var asleep := Run(w, entering);
               && asleep == w.(waiters := w.waiters[waiter := Parked(0)]) && !Ready(asleep.channel, Parked(0))
               && ValidRun(asleep, [CloneToken(token, clone), CancelToken(clone), Step(waiter)])
               && var awake := Run(asleep, [CloneToken(token, clone), CancelToken(clone), Step(waiter)]);
                  waiter in awake.waiters && awake.waiters[waiter] == Done && awake.channel.value
                    && clone in awake.tokens
  {
    var w1 := Apply(w, Enter(waiter, token));
    var w2 := Apply(w1, Step(waiter));
    var w3 := Apply(w2, Step(waiter));
    assert w3.waiters == w.waiters[waiter := Parked(0)];
    ThreeSteps(w, Enter(waiter, token), Step(waiter), Step(waiter));
    var w4 := Apply(w3, CloneToken(token, clone));
    var w5 := Apply(w4, CancelToken(clone));
    ThreeSteps(w3, CloneToken(token, clone), CancelToken(clone), Step(waiter));
  }

  lemma ThreeSteps(w: World, a: Event, b: Event, c: Event)
    requires Enabled(w, a) && Enabled(Apply(w, a), b) && Enabled(Apply(Apply(w, a), b), c)
    ensures ValidRun(w, [a, b, c]) && Run(w, [a, b, c]) == Apply(Apply(Apply(w, a), b), c)
  {
    hide Enabled, Apply;
    var w3 := Apply(Apply(Apply(w, a), b), c);
    assert [a, b, c][1..] == [b, c] && [b, c][1..] == [c] && [c][1..] == [];
    assert ValidRun(w3, []) && Run(w3, []) == w3;
    assert ValidRun(Apply(Apply(w, a), b), [c]) && Run(Apply(Apply(w, a), b), [c]) == w3;
    assert ValidRun(Apply(w, a), [b, c]) && Run(Apply(w, a), [b, c]) == w3;
  }

  /** Whether a task is inside `cancelled()`: the last thing it did is entering. */
  predicate Inside(before: bool, events: seq<Event>, waiter: nat)
    decreases |events|
  {
    if events == [] then before
    else
      var e := events[0];
      Inside(if e.Enter? && e.waiter == waiter then true else if e == Abandon(waiter) then false else before,
             events[1..], waiter)
  }

  lemma {:induction false} WaitersByHistory(w: World, events: seq<Event>, waiter: nat)
    requires ValidRun(w, events)
    ensures waiter in Run(w, events).waiters <==> Inside(waiter in w.waiters, events, waiter)
    decreases |events|
  {
    if events == [] {
    } else {
      WaitersByHistory(Apply(w, events[0]), events[1..], waiter);
    }
  }

  /** A wait can be given up at any moment, as `select!` does with the branches that lose, without touching another. */
  lemma WaitCanBeDropped(w: World, waiter: nat)
    requires waiter in w.waiters
    ensures ValidRun(w, [Abandon(waiter)])
    ensures var w' := Run(w, [Abandon(waiter)]);
            && waiter !in w'.waiters && w'.channel == w.channel && w'.tokens == w.tokens
            && forall i | i in w.waiters && i != waiter :: i in w'.waiters && w'.waiters[i] == w.waiters[i]
  {
    assert [Abandon(waiter)][1..] == [];
    assert Run(w, [Abandon(waiter)]) == Apply(w, Abandon(waiter));
  }
}
