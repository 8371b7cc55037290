/**
 * The DNS proxy (rust/core/src/dns.rs): one receive buffer used over and over,
 * and any number of queries in flight that finish in any order.
 */
module Dns {
  import opened Util

  const MAX_UDP_DNS := 4096

  type Peer = nat

  // ---- Messages (section 4.1.1 of RFC 1035) ------------------------------------

  datatype Question = Question(name: seq<Bytes>, kind: nat, class_: nat)

  datatype Kind = Query | Response

  datatype Message = Message(id: nat, kind: Kind, opCode: nat, responseCode: nat, queries: seq<Question>,
                             records: seq<Bytes>)

  const NO_ERROR := 0
  const SERV_FAIL := 2

  /** The wire format as the codec library reads and writes it; either direction may fail. */
  datatype Codec = Codec(parse: Bytes -> Option<Message>, print_: Message -> Option<Bytes>)
  {
    /** What the library promises: reading back what it wrote. */
    ghost predicate Faithful() {
      forall m: Message | print_(m).Some? :: parse(print_(m).value) == Some(m)
    }
  }

  function Failure(m: Message): Message {
    Message(m.id, Response, m.opCode, SERV_FAIL, m.queries, [])
  }

  function ServFail(codec: Codec, query: Bytes): Option<Bytes> {
    match codec.parse(query)
    case None => None
    case Some(m) => codec.print_(Failure(m))
  }

  /** `build_servfail`: a fresh response header, then the questions one by one. */
  method BuildServFail(codec: Codec, query: Bytes) returns (answer: Option<Bytes>)
    ensures answer == ServFail(codec, query)
  {
    var parsed := codec.parse(query);
    if parsed.None? {
      return None;
    }
    var m := parsed.value;
    var response := Message(m.id, Response, m.opCode, NO_ERROR, [], []);
    response := response.(responseCode := SERV_FAIL);
    for k := 0 to |m.queries|
      invariant response == Failure(m).(queries := m.queries[..k])
    {
      response := response.(queries := response.queries + [m.queries[k]]);
    }
    assert m.queries[..|m.queries|] == m.queries;
    answer := codec.print_(response);
  }

  /**
   * A client that decodes the failure sees its own id, operation and questions in
   * order, marked as a response with SERVFAIL and no records.
   */
  lemma FailureIsForItsQuery(codec: Codec, query: Bytes, answer: Bytes)
    requires codec.Faithful() && ServFail(codec, query) == Some(answer)
    ensures codec.parse(query).Some? && codec.parse(answer).Some?
    ensures var asked, got := codec.parse(query).value, codec.parse(answer).value;
            && got.id == asked.id && got.opCode == asked.opCode && got.queries == asked.queries
            && got.kind == Response && got.responseCode == 2 && got.records == []
  {
    assert codec.print_(Failure(codec.parse(query).value)).Some?;
  }

  // ---- The proxy as a machine over its events ----------------------------------

  datatype Forward = Forward(query: Bytes, peer: Peer)

  datatype Outcome = Answered(answer: Bytes) | Failed

  datatype Event =
    | Datagram(bytes: Bytes, peer: Peer)
    | ReceiveError
    | Finished(index: nat, outcome: Outcome, sendFails: bool)
    | Cancel  // the engine's token is cancelled
    | Leaves  // the loop notices and returns

  datatype Reply = Reply(index: nat, peer: Peer, bytes: Bytes)

  /**
   * Queries are numbered in the order of arrival; `silent` are the finished ones that got no reply. The loop is `open`
   * until it returns.
   */
  datatype State = State(
    cancelled: bool,
    open: bool,
    received: nat,
    flying: map<nat, Forward>,
    sent: seq<Reply>,
    silent: set<nat>)

  const START := State(false, true, 0, map[], [], {})

  function Cut(bytes: Bytes): Bytes {
    if |bytes| <= MAX_UDP_DNS then bytes else bytes[..MAX_UDP_DNS]
  }

  /** What one forward sends back. */
  function AnswerTo(codec: Codec, query: Bytes, outcome: Outcome): Option<Bytes> {
    match outcome
    case Answered(answer) => Some(answer)
    case Failed => ServFail(codec, query)
  }

  /** In each turn the loop takes whichever of its two branches it likes among the ready ones. */
  predicate Enabled(s: State, e: Event) {
    match e
    case Datagram(_, _) => s.open
    case ReceiveError => s.open
    case Leaves => s.open && s.cancelled
    case Finished(index, _, _) => index in s.flying
    case Cancel => true
  }

  function Apply(codec: Codec, s: State, e: Event): State
    requires Enabled(s, e)
  {
    match e
    case Datagram(bytes, peer) =>
      s.(received := s.received + 1, flying := s.flying[s.received := Forward(Cut(bytes), peer)])
    case ReceiveError => s
    case Cancel => s.(cancelled := true)
    case Leaves => s.(open := false)
    case Finished(index, outcome, sendFails) =>
      var f, landed := s.flying[index], s.(flying := s.flying - {index});
      var answer := AnswerTo(codec, f.query, outcome);
      if answer.None? || sendFails then landed.(silent := s.silent + {index})
      else landed.(sent := s.sent + [Reply(index, f.peer, answer.value)])
  }

  /** Events that find nobody to take them have no effect. */
  function Step(codec: Codec, s: State, e: Event): State {
    if Enabled(s, e) then Apply(codec, s, e) else s
  }

  function Run(codec: Codec, events: seq<Event>): State {
    if events == [] then START else Step(codec, Run(codec, events[..|events| - 1]), events[|events| - 1])
  }

  /** The loop has returned, which takes a cancel before it. */
  predicate Left(events: seq<Event>) {
    events != [] &&
    var rest := events[..|events| - 1];
    Left(rest) || (events[|events| - 1].Leaves? && Cancel in rest)
  }

  /** The datagrams taken from the socket, in order: those that come before the loop returns. */
  function Taken(events: seq<Event>): seq<Forward> {
    if events == [] then []
    else
      var rest, e := events[..|events| - 1], events[|events| - 1];
      if e.Datagram? && !Left(rest) then Taken(rest) + [Forward(Cut(e.bytes), e.peer)] else Taken(rest)
  }

  /** Forward `index` ended with `bytes` for its client. */
  ghost predicate Earned(codec: Codec, events: seq<Event>, index: nat, query: Bytes, bytes: Bytes) {
    exists e | e in events ::
      e.Finished? && e.index == index && !e.sendFails && AnswerTo(codec, query, e.outcome) == Some(bytes)
  }

  ghost predicate FlyingInv(s: State, taken: seq<Forward>) {
    forall i | i in s.flying :: i < |taken| && s.flying[i] == taken[i]
  }

  ghost predicate SentInv(codec: Codec, events: seq<Event>, s: State, taken: seq<Forward>) {
    forall k | 0 <= k < |s.sent| ::
      var r := s.sent[k];
      && r.index < |taken| && r.peer == taken[r.index].peer
      && Earned(codec, events, r.index, taken[r.index].query, r.bytes)
  }

  /** Every query is in flight, answered or silently finished: exactly one of them. */
  ghost predicate Apart(s: State) {
    && (forall k | 0 <= k < |s.sent| :: s.sent[k].index !in s.flying && s.sent[k].index !in s.silent)
    && (forall i | i in s.flying :: i !in s.silent)
    && (forall j, k | 0 <= j < k < |s.sent| :: s.sent[j].index != s.sent[k].index)
  }

  predicate Replied(s: State, i: nat) {
    exists k | 0 <= k < |s.sent| :: s.sent[k].index == i
  }

  ghost predicate Covers(s: State) {
    && (forall i: nat :: i < s.received <==> i in s.flying || i in s.silent || Replied(s, i))
  }

  lemma {:induction false} RunInv(codec: Codec, events: seq<Event>)
    ensures var s, taken := Run(codec, events), Taken(events);
            && s.received == |taken| && (s.open <==> !Left(events)) && (s.cancelled <==> Cancel in events)
            && FlyingInv(s, taken) && SentInv(codec, events, s, taken) && Apart(s) && Covers(s)
  {
    if events == [] {
    } else {
      var rest, e := events[..|events| - 1], events[|events| - 1];
      RunInv(codec, rest);
      assert events == rest + [e];
      SentStays(codec, rest, e);
      ApartStays(codec, Run(codec, rest), e);
      CoversStays(codec, Run(codec, rest), e);
      FlyingStays(codec, rest, e);
      hide SentInv, Apart, Covers, FlyingInv, Step, Taken, AnswerTo;
    }
  }

  lemma FlyingStays(codec: Codec, rest: seq<Event>, e: Event)
    requires var s, taken := Run(codec, rest), Taken(rest);
             FlyingInv(s, taken) && s.received == |taken| && (s.open <==> !Left(rest))
               && (s.cancelled <==> Cancel in rest)
    ensures var s, taken, events := Run(codec, rest + [e]), Taken(rest + [e]), rest + [e];
            FlyingInv(s, taken) && s.received == |taken| && (s.open <==> !Left(events))
              && (s.cancelled <==> Cancel in events)
  {
    var events := rest + [e];
    assert events[..|events| - 1] == rest;
    var s, taken := Run(codec, rest), Taken(rest);
    assert Run(codec, events) == Step(codec, s, e);
    assert Taken(events) == if e.Datagram? && s.open then taken + [Forward(Cut(e.bytes), e.peer)] else taken;
    hide Run, Taken, AnswerTo, Cut;
  }

  lemma SentStays(codec: Codec, rest: seq<Event>, e: Event)
    requires var s, taken := Run(codec, rest), Taken(rest); FlyingInv(s, taken) && SentInv(codec, rest, s, taken)
    ensures Taken(rest) <= Taken(rest + [e])
    ensures SentInv(codec, rest + [e], Run(codec, rest + [e]), Taken(rest + [e]))
  {
    var events := rest + [e];
    assert events[..|events| - 1] == rest;
    var s, s', taken, taken' := Run(codec, rest), Run(codec, events), Taken(rest), Taken(events);
    hide Run, Taken;
    forall k | 0 <= k < |s'.sent|
      ensures var r := s'.sent[k];
              && r.index < |taken'| && r.peer == taken'[r.index].peer
              && Earned(codec, events, r.index, taken'[r.index].query, r.bytes)
    {
      var r := s'.sent[k];
      if k < |s.sent| {
        assert s.sent[k] == r;
        assert forall x | x in rest :: x in events;
      } else {
        assert e in events;
      }
    }
  }

  lemma ApartStays(codec: Codec, s: State, e: Event)
    requires Apart(s) && Covers(s)
    ensures Apart(Step(codec, s, e))
  {
    var s' := Step(codec, s, e);
    hide AnswerTo, Cut;
    forall k | 0 <= k < |s.sent|
      ensures s.sent[k].index != s.received && s.received !in s.silent
    {
      assert Replied(s, s.sent[k].index);
      assert !(s.received < s.received);
    }
  }

  lemma CoversStays(codec: Codec, s: State, e: Event)
    requires Covers(s)
    ensures Covers(Step(codec, s, e))
  {
    var s' := Step(codec, s, e);
    hide AnswerTo, Cut;
    forall i: nat
      ensures i < s'.received <==> i in s'.flying || i in s'.silent || Replied(s', i)
    {
      assert i < s.received <==> i in s.flying || i in s.silent || Replied(s, i);
      if Replied(s, i) {
        var k :| 0 <= k < |s.sent| && s.sent[k].index == i;
        assert s'.sent[k].index == i;
      }
      if e.Finished? && e.index == i && |s'.sent| > |s.sent| {
        assert s'.sent[|s.sent|].index == i;
      }
      if Replied(s', i) {
        var k :| 0 <= k < |s'.sent| && s'.sent[k].index == i;
      }
    }
  }

  predicate Counted(s: State) {
    s.received == |s.flying| + |s.sent| + |s.silent|
  }

  lemma TakenOff(flying: map<nat, Forward>, i: nat)
    requires i in flying
    ensures |flying - {i}| == |flying| - 1
  {
    assert (flying - {i}).Keys == flying.Keys - {i};
  }

  lemma PutUp(flying: map<nat, Forward>, i: nat, f: Forward)
    requires i !in flying
    ensures |flying[i := f]| == |flying| + 1
  {
    assert flying[i := f].Keys == flying.Keys + {i};
  }

  lemma StepCounts(codec: Codec, s: State, e: Event)
    requires Counted(s) && s.received !in s.flying && forall i | i in s.flying :: i !in s.silent
    ensures Counted(Step(codec, s, e))
  {
    hide AnswerTo, Cut;
    match e {
      case Datagram(bytes, peer) =>
        PutUp(s.flying, s.received, Forward(Cut(bytes), peer));
      case Finished(index, o, lost) =>
        if index in s.flying {
          TakenOff(s.flying, index);
        }
      case _ =>
    }
  }

  lemma {:induction false} RunCounts(codec: Codec, events: seq<Event>)
    ensures Counted(Run(codec, events))
  {
    if events == [] {
    } else {
      var rest := events[..|events| - 1];
      RunCounts(codec, rest);
      RunInv(codec, rest);
      StepCounts(codec, Run(codec, rest), events[|events| - 1]);
      hide SentInv, Counted, Step;
    }
  }

  // ---- Main results --------------------------------------------------------------

  /**
   * However arrivals, completions, failures and the cancel interleave: a datagram
   * gets at most one reply, the reply goes to the datagram's own sender and answers
   * the datagram's own bytes, and every datagram taken is still in flight, replied
   * to, or silently finished.
   */
  lemma OneReplyEach(codec: Codec, events: seq<Event>)
    ensures var s, taken := Run(codec, events), Taken(events);
            && |taken| == |s.flying| + |s.sent| + |s.silent|
            && (forall i | i in s.flying :: i < |taken| && s.flying[i] == taken[i])
            && (forall j, k | 0 <= j < k < |s.sent| :: s.sent[j].index != s.sent[k].index)
            && forall k | 0 <= k < |s.sent| ::
                 var r := s.sent[k];
                 r.index < |taken| && r.peer == taken[r.index].peer
                 && Earned(codec, events, r.index, taken[r.index].query, r.bytes)
  {
    RunInv(codec, events);
    RunCounts(codec, events);
    hide Run, Taken, Earned;
  }

  /**
   * When a query in flight finishes with something to say, its sender hears it, cancelled or not,
   * and even after the loop has returned.
   */
  lemma AnswerGoesHome(codec: Codec, events: seq<Event>, index: nat, outcome: Outcome)
    requires index in Run(codec, events).flying
    ensures index < |Taken(events)|
    ensures var s, f := Run(codec, events), Taken(events)[index];
            var s' := Run(codec, events + [Finished(index, outcome, false)]);
            && s'.flying == s.flying - {index}
            && s'.sent == s.sent + match AnswerTo(codec, f.query, outcome)
                                   case Some(b) => [Reply(index, f.peer, b)]
                                   case None => []
  {
    RunInv(codec, events);
    var more := events + [Finished(index, outcome, false)];
    assert more[..|more| - 1] == events;
  }

  /** The loop can return from the cancel on, at every moment until it does. */
  lemma ExitOpensWithTheCancel(codec: Codec, events: seq<Event>)
    ensures Enabled(Run(codec, events), Leaves) <==> Cancel in events && !Left(events)
  {
    RunInv(codec, events);
  }

  /** Once the loop has returned, nothing is received any more. */
  lemma {:induction false} NothingAfterLeaving(codec: Codec, events: seq<Event>, more: seq<Event>)
    requires Left(events)
    ensures var s, s' := Run(codec, events), Run(codec, events + more);
            !s'.open && s'.received == s.received && s'.flying.Keys <= s.flying.Keys
  {
    if more == [] {
      RunInv(codec, events);
      assert events + more == events;
    } else {
      var all := events + more;
      var rest := more[..|more| - 1];
      assert all[..|all| - 1] == events + rest;
      NothingAfterLeaving(codec, events, rest);
      hide AnswerTo;
    }
  }

  function Arrivals(batch: seq<Forward>): seq<Event> {
    seq(|batch|, i requires 0 <= i < |batch| => Datagram(batch[i].query, batch[i].peer))
  }

  /**
   * The cancel alone stops nothing: until the loop happens to take its exit it may go on receiving, any number of
   * datagrams, with the exit open all the while.
   */
  lemma {:induction false} CancelAloneStopsNothing(codec: Codec, events: seq<Event>, batch: seq<Forward>)
    requires Cancel in events && !Left(events)
    ensures var s, s' := Run(codec, events), Run(codec, events + Arrivals(batch));
            s'.received == s.received + |batch| && Enabled(s', Leaves)
    decreases |batch|
  {
    if batch == [] {
      ExitOpensWithTheCancel(codec, events);
      assert events + Arrivals(batch) == events;
    } else {
      var rest, last := batch[..|batch| - 1], batch[|batch| - 1];
      CancelAloneStopsNothing(codec, events, rest);
      var all := events + Arrivals(batch);
      assert all[..|all| - 1] == events + Arrivals(rest);
      assert all[|all| - 1] == Datagram(last.query, last.peer);
    }
  }

  /** Taking another datagram never touches a query in flight: it commutes with finishing an earlier one. */
  lemma ReceivingIsInert(codec: Codec, s: State, bytes: Bytes, peer: Peer, i: nat, o: Outcome, lost: bool)
    requires i != s.received
    ensures Step(codec, Step(codec, s, Datagram(bytes, peer)), Finished(i, o, lost))
         == Step(codec, Step(codec, s, Finished(i, o, lost)), Datagram(bytes, peer))
  {
    hide ServFail, Cut, AnswerTo;
    var f := Forward(Cut(bytes), peer);
    assert s.flying[s.received := f] - {i} == (s.flying - {i})[s.received := f];
  }

  /** What finishing `index` sends, and what it leaves. */
  function Sends(codec: Codec, s: State, index: nat, o: Outcome, lost: bool): seq<Reply> {
    if index !in s.flying then []
    else
      var answer := AnswerTo(codec, s.flying[index].query, o);
      if answer.None? || lost then [] else [Reply(index, s.flying[index].peer, answer.value)]
  }

  lemma FinishedSends(codec: Codec, s: State, index: nat, o: Outcome, lost: bool)
    ensures var mine := Sends(codec, s, index, o, lost);
            Step(codec, s, Finished(index, o, lost))
            == s.(flying := s.flying - {index}, sent := s.sent + mine,
                  silent := if index in s.flying && mine == [] then s.silent + {index} else s.silent)
  {
    hide AnswerTo;
    if index !in s.flying {
      assert s.flying - {index} == s.flying;
    }
  }

  lemma SendsApart(codec: Codec, s: State, i: nat, j: nat, o: Outcome, o': Outcome, lost: bool, lost': bool)
    requires i != j
    ensures Sends(codec, Step(codec, s, Finished(i, o, lost)), j, o', lost') == Sends(codec, s, j, o', lost')
  {
    hide AnswerTo;
  }

  /** Two queries may finish in either order: the same replies go out. */
  lemma OrderIsImmaterial(codec: Codec, s: State, i: nat, j: nat, o: Outcome, o': Outcome, lost: bool, lost': bool)
    requires i != j
    ensures var x := Step(codec, Step(codec, s, Finished(i, o, lost)), Finished(j, o', lost'));
            var y := Step(codec, Step(codec, s, Finished(j, o', lost')), Finished(i, o, lost));
            x.(sent := []) == y.(sent := []) && multiset(x.sent) == multiset(y.sent)
  {
    hide Step, Sends;
    var a, b := Step(codec, s, Finished(i, o, lost)), Step(codec, s, Finished(j, o', lost'));
    FinishedSends(codec, s, i, o, lost);
    FinishedSends(codec, s, j, o', lost');
    FinishedSends(codec, a, j, o', lost');
    FinishedSends(codec, b, i, o, lost);
    SendsApart(codec, s, i, j, o, o', lost, lost');
    SendsApart(codec, s, j, i, o', o, lost', lost);
    assert s.flying - {i} - {j} == s.flying - {j} - {i};
    assert s.silent + {i} + {j} == s.silent + {j} + {i};
  }

  // ---- The proxy itself ----------------------------------------------------------

  class Proxy {
    const codec: Codec
    const buf: array<byte>
    var cancelled: bool
    var open: bool
    var received: nat
    var flying: map<nat, Forward>
    var sent: seq<Reply>
    ghost var silent: set<nat>

    ghost predicate Valid()
    {
      buf.Length == MAX_UDP_DNS
    }

    ghost function Now(): State
      reads this
    {
      State(cancelled, open, received, flying, sent, silent)
    }

    constructor (codec: Codec)
      ensures Valid() && fresh(buf) && this.codec == codec && Now() == START
    {
      this.codec := codec;
      buf := new byte[MAX_UDP_DNS](_ => 0);
      cancelled, open, received, flying, sent, silent := false, true, 0, map[], [], {};
    }

    /** `recv_from`: fills the front of the buffer, cuts what does not fit, leaves the rest as it was. */
    method RecvFrom(bytes: Bytes) returns (n: nat)
      requires Valid()
      modifies buf
      ensures n == |Cut(bytes)| <= buf.Length
      ensures buf[..n] == Cut(bytes) && buf[n..] == old(buf[n..])
    {
      n := 0;
      while n < |bytes| && n < buf.Length
        invariant n <= |bytes| && n <= buf.Length
        invariant buf[..n] == bytes[..n]
        invariant forall k | n <= k < buf.Length :: buf[k] == old(buf[k])
      {
        buf[n] := bytes[n];
        n := n + 1;
      }
    }

    /** One turn of the loop that ends in a received datagram. */
    method Receive(bytes: Bytes, peer: Peer)
      requires Valid() && open
      modifies this`received, this`flying, buf
      ensures Now() == Step(codec, old(Now()), Datagram(bytes, peer))
    {
      var n := RecvFrom(bytes);
      var query := buf[..n];
      flying := flying[received := Forward(query, peer)];
      received := received + 1;
    }

    /** The body of a spawned forward once its exchange is over. */
    method Finish(index: nat, outcome: Outcome, sendFails: bool)
      requires index in flying
      modifies this`flying, this`sent, this`silent
      ensures Now() == Step(codec, old(Now()), Finished(index, outcome, sendFails))
    {
      var f := flying[index];
      flying := flying - {index};
      var answer;
      match outcome {
        case Answered(a) =>
          answer := Some(a);
        case Failed =>
          answer := BuildServFail(codec, f.query);
      }
      if answer.Some? && !sendFails {
        sent := sent + [Reply(index, f.peer, answer.value)];
      } else {
        silent := silent + {index};
      }
    }

    method Cancel()
      modifies this`cancelled
      ensures Now() == Step(codec, old(Now()), Event.Cancel)
    {
      cancelled := true;
    }

    /** The other turn of the loop: the token's branch is taken, and the loop returns. */
    method Leave()
      requires open && cancelled
      modifies this`open
      ensures Now() == Step(codec, old(Now()), Leaves)
    {
      open := false;
    }
  }

  /** A whole run of the proxy sends what the machine sends. */
  method Drive(codec: Codec, events: seq<Event>) returns (sent: seq<Reply>)
    ensures sent == Run(codec, events).sent
  {
    hide Step, ServFail;
    var proxy := new Proxy(codec);
    for k := 0 to |events|
      invariant proxy.Valid() && proxy.codec == codec && fresh(proxy) && fresh(proxy.buf)
      invariant proxy.Now() == Run(codec, events[..k])
    {
      assert events[..k + 1][..k] == events[..k];
      ghost var s := proxy.Now();
      Unmoved(codec, s, events[k]);
      match events[k] {
        case Datagram(bytes, peer) =>
          if proxy.open {
            proxy.Receive(bytes, peer);
          }
        case ReceiveError =>
        case Finished(index, outcome, sendFails) =>
          if index in proxy.flying {
            proxy.Finish(index, outcome, sendFails);
          }
        case Cancel =>
          proxy.Cancel();
        case Leaves =>
          if proxy.open && proxy.cancelled {
            proxy.Leave();
          }
      }
    }
    assert events[..|events|] == events;
    return proxy.sent;
  }

  lemma Unmoved(codec: Codec, s: State, e: Event)
    ensures e.ReceiveError? || !Enabled(s, e) ==> Step(codec, s, e) == s
  {
  }

  // ---- What exactly is sent ----------------------------------------------------

  /** A query is what the datagram held, up to its first 4096 bytes. */
  lemma QueryIsTheDatagram(bytes: Bytes)
    ensures Cut(bytes) <= bytes && |Cut(bytes)| == if |bytes| < 4096 then |bytes| else 4096
  {
  }

  /** The upstream's answer is passed on as it came; if sending it fails, nothing is sent. */
  lemma AnswerIsPassedOn(codec: Codec, events: seq<Event>, index: nat, answer: Bytes)
    requires index in Run(codec, events).flying
    ensures index < |Taken(events)|
    ensures Run(codec, events + [Finished(index, Answered(answer), false)]).sent
         == Run(codec, events).sent + [Reply(index, Taken(events)[index].peer, answer)]
    ensures Run(codec, events + [Finished(index, Answered(answer), true)]).sent == Run(codec, events).sent
  {
    AnswerGoesHome(codec, events, index, Answered(answer));
    var more := events + [Finished(index, Answered(answer), true)];
    assert more[..|more| - 1] == events;
  }

  /** A failed exchange is answered exactly if the query parses and the failure can be printed. */
  lemma FailureIsSentIff(codec: Codec, events: seq<Event>, index: nat)
    requires index in Run(codec, events).flying
    ensures index < |Taken(events)|
    ensures var f, sent := Taken(events)[index], Run(codec, events + [Finished(index, Failed, false)]).sent;
            match codec.parse(f.query)
            case None => sent == Run(codec, events).sent
            case Some(m) =>
              var bytes := codec.print_(Message(m.id, Response, m.opCode, 2, m.queries, []));
              sent == Run(codec, events).sent + if bytes.Some? then [Reply(index, f.peer, bytes.value)] else []
  {
    AnswerGoesHome(codec, events, index, Failed);
    hide Run, Taken;
  }

  /** Until it returns the loop receives, cancelled or not, and a failing receive changes nothing. */
  lemma LoopGoesOn(codec: Codec, events: seq<Event>, bytes: Bytes, peer: Peer)
    ensures Enabled(Run(codec, events), Datagram(bytes, peer)) <==> !Left(events)
    ensures Enabled(Run(codec, events), ReceiveError) <==> !Left(events)
    ensures Run(codec, events + [ReceiveError]) == Run(codec, events)
  {
    RunInv(codec, events);
    assert (events + [ReceiveError])[..|events|] == events;
  }
}
