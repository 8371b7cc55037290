/**
 * One proxied connection from accept to end of file, as a transition system:
 * the client's bytes arrive in any pieces, the negotiation reads them, the dial
 * may fail, and two copy tasks that share the cancellation token run in any order.
 */
module Relay {
  import opened Util
  import opened Socks5
  import opened Socks5Messages

  /** What is fixed when the connection is accepted. */
  datatype Setup = Setup(auth: Credentials, room: nat)

  datatype Status =
    | Copying
    | Finished  // the source reached end of file and everything was written
    | Broken    // a read or write failed
    | Stopped   // the token was cancelled

  /** One `tokio::io::copy` task: bytes it has read but not written yet. */
  datatype Copier = Copier(buffered: Bytes, status: Status)

  datatype Stage =
    | Negotiating(session: Session)
    | Replying
    | Pumping(up: Copier, down: Copier)
    | Closed

  datatype Conn = Conn(
    stage: Stage,
    arrived: Bytes,      // everything the client has sent so far
    clientDone: bool,    // the client sends no more
    taken: nat,          // how much of it has been read off the socket
    toClient: Bytes,     // everything written to the client
    torArrived: Bytes,   // everything Tor has sent so far
    torDone: bool,
    torTaken: nat,
    toTor: Bytes,        // everything written to the Tor stream
    cancelled: bool)

  datatype Event =
    | ClientSends(bytes: Bytes)
    | ClientCloses
    | TorSends(bytes: Bytes)
    | TorCloses
    | Cancel
    | Read(n: nat)
    | ReadFails
    | GiveUp
    | DialSucceeds
    | DialFails
    | Reply
    | UpReads(n: nat)
    | UpWrites(n: nat)
    | UpFinishes
    | UpBreaks
    | UpStops
    | DownReads(n: nat)
    | DownWrites(n: nat)
    | DownFinishes
    | DownBreaks
    | DownStops

  function Accept(setup: Setup): Conn {
    Conn(Negotiating(Begin(setup.room)), [], false, 0, [], [], false, 0, [], false)
  }

  predicate UpCopying(c: Conn) {
    c.stage.Pumping? && c.stage.up.status == Copying
  }

  predicate DownCopying(c: Conn) {
    c.stage.Pumping? && c.stage.down.status == Copying
  }

  predicate Enabled(c: Conn, e: Event) {
    match e
    case ClientSends(_) | ClientCloses => !c.clientDone
    case TorSends(_) | TorCloses => (c.stage.Replying? || c.stage.Pumping?) && !c.torDone
    case Cancel => true
    case Read(n) =>
      && c.stage.Negotiating? && c.stage.session.Valid() && !c.stage.session.phase.Final()
      && 1 <= n <= c.stage.session.phase.Need() - |c.stage.session.buffered|
      && c.taken + n <= |c.arrived|
    case ReadFails => c.stage.Negotiating? && !c.stage.session.phase.Final()
    case GiveUp => c.stage.Negotiating? && c.stage.session.phase.Dead?
    case DialSucceeds | DialFails => c.stage.Negotiating? && c.stage.session.phase.Dialing?
    case Reply => c.stage.Replying?
    case UpReads(n) => UpCopying(c) && 1 <= n && c.taken + n <= |c.arrived|
    case UpWrites(n) => UpCopying(c) && 1 <= n <= |c.stage.up.buffered|
    case UpFinishes => UpCopying(c) && c.stage.up.buffered == [] && c.clientDone && c.taken == |c.arrived|
    case UpBreaks => UpCopying(c)
    case UpStops => UpCopying(c) && c.cancelled
    case DownReads(n) => DownCopying(c) && 1 <= n && c.torTaken + n <= |c.torArrived|
    case DownWrites(n) => DownCopying(c) && 1 <= n <= |c.stage.down.buffered|
    case DownFinishes => DownCopying(c) && c.stage.down.buffered == [] && c.torDone && c.torTaken == |c.torArrived|
    case DownBreaks => DownCopying(c)
    case DownStops => DownCopying(c) && c.cancelled
  }

  function SetUp(c: Conn, up: Copier): Conn
    requires c.stage.Pumping?
  {
    c.(stage := Pumping(up, c.stage.down))
  }

  function SetDown(c: Conn, down: Copier): Conn
    requires c.stage.Pumping?
  {
    c.(stage := Pumping(c.stage.up, down))
  }

  function Apply(setup: Setup, c: Conn, e: Event): Conn
    requires Enabled(c, e)
  {
    match e
    case ClientSends(bytes) => c.(arrived := c.arrived + bytes)
    case ClientCloses => c.(clientDone := true)
    case TorSends(bytes) => c.(torArrived := c.torArrived + bytes)
    case TorCloses => c.(torDone := true)
    case Cancel => c.(cancelled := true)
    case Read(n) =>
      var f := Feed(c.stage.session, c.arrived[c.taken..c.taken + n], setup.auth);
      c.(stage := Negotiating(f.session), taken := c.taken + n, toClient := c.toClient + f.sent)
    case ReadFails | GiveUp | DialFails => c.(stage := Closed)
    case DialSucceeds => c.(stage := Replying)
    case Reply =>
      var left := if |c.toClient| <= setup.room then setup.room - |c.toClient| else 0;
      if left < |REPLY_SUCCEEDED| then
        c.(stage := Closed, toClient := c.toClient + REPLY_SUCCEEDED[..left])
      else
        c.(stage := Pumping(Copier([], Copying), Copier([], Copying)), toClient := c.toClient + REPLY_SUCCEEDED)
    case UpReads(n) =>
      var up := c.stage.up;
      SetUp(c.(taken := c.taken + n), up.(buffered := up.buffered + c.arrived[c.taken..c.taken + n]))
    case UpWrites(n) =>
      var up := c.stage.up;
      SetUp(c.(toTor := c.toTor + up.buffered[..n]), up.(buffered := up.buffered[n..]))
    case UpFinishes => SetUp(c, c.stage.up.(status := Finished))
    case UpBreaks => SetUp(c, c.stage.up.(status := Broken))
    case UpStops => SetUp(c, c.stage.up.(status := Stopped))
    case DownReads(n) =>
      var down := c.stage.down;
      SetDown(c.(torTaken := c.torTaken + n),
              down.(buffered := down.buffered + c.torArrived[c.torTaken..c.torTaken + n]))
    case DownWrites(n) =>
      var down := c.stage.down;
      SetDown(c.(toClient := c.toClient + down.buffered[..n]), down.(buffered := down.buffered[n..]))
    case DownFinishes => SetDown(c, c.stage.down.(status := Finished))
    case DownBreaks => SetDown(c, c.stage.down.(status := Broken))
    case DownStops => SetDown(c, c.stage.down.(status := Stopped))
  }

  // ---- The invariant --------------------------------------------------------

  /** Whether, and how, the client's bytes so far get the connection dialled. */
  function Negotiated(setup: Setup, arrived: Bytes): Outcome {
    Parse(Greeting, arrived, setup.auth, setup.room)
  }

  const GRANTED: Bytes := PRELUDE + REPLY_SUCCEEDED

  predicate Counts(c: Conn) {
    c.taken <= |c.arrived| && c.torTaken <= |c.torArrived|
  }

  predicate InNegotiation(setup: Setup, c: Conn)
    requires Counts(c) && c.stage.Negotiating?
  {
    && c.stage.session.Settled()
    && Feed(Begin(setup.room), c.arrived[..c.taken], setup.auth) == Fed(c.stage.session, c.taken, c.toClient)
    && c.toTor == [] && c.torArrived == []
  }

  predicate InReply(setup: Setup, c: Conn)
    requires Counts(c)
  {
    var o := Negotiated(setup, c.arrived);
    && o.phase.Dialing? && o.used == c.taken
    && c.toClient == o.sent == PRELUDE && |PRELUDE| <= setup.room
    && c.toTor == [] && c.torTaken == 0
  }

  /** Every byte behind the request is in Tor, in the copier or still on the socket; likewise downwards. */
  predicate InPump(setup: Setup, c: Conn)
    requires Counts(c) && c.stage.Pumping?
  {
    var o := Negotiated(setup, c.arrived);
    && o.phase.Dialing? && o.used <= c.taken && o.sent == PRELUDE
    && c.toTor + c.stage.up.buffered == c.arrived[o.used..c.taken]
    && c.toClient + c.stage.down.buffered == GRANTED + c.torArrived[..c.torTaken]
    && |GRANTED| <= |c.toClient|
    && (c.stage.up.status == Finished ==> c.stage.up.buffered == [] && c.clientDone && c.taken == |c.arrived|)
    && (c.stage.down.status == Finished ==> c.stage.down.buffered == [] && c.torDone && c.torTaken == |c.torArrived|)
  }

  /** What a client whose connection was dropped before pumping may have seen. */
  predicate InClosed(setup: Setup, c: Conn)
    requires Counts(c)
  {
    && c.toTor == []
    && (c.toClient <= PRELUDE || c.toClient <= NO_ACCEPTABLE_METHOD || c.toClient <= METHOD_USER_PASS + AUTH_FAILED
        || (Negotiated(setup, c.arrived).phase.Dialing? && c.toClient <= GRANTED))
  }

  predicate Inv(setup: Setup, c: Conn) {
    && Counts(c)
    && match c.stage
       case Negotiating(_) => InNegotiation(setup, c)
       case Replying => InReply(setup, c)
       case Pumping(_, _) => InPump(setup, c)
       case Closed => InClosed(setup, c)
  }

  /** Once the request is in, later bytes cannot change the target. */
  lemma NegotiatedStable(setup: Setup, arrived: Bytes, more: Bytes)
    requires Negotiated(setup, arrived).phase.Dialing?
    ensures Negotiated(setup, arrived + more) == Negotiated(setup, arrived)
  {
    hide Parse;
    Extension(Greeting, arrived, more, setup.auth, setup.room);
  }

  /** The session reached by incremental reads is the one-shot outcome of what was read. */
  lemma SessionIsOutcome(setup: Setup, c: Conn)
    requires Counts(c) && c.stage.Negotiating? && InNegotiation(setup, c)
    ensures Negotiated(setup, c.arrived[..c.taken]) == Outcome(c.stage.session.Closed(), c.taken, c.toClient)
    ensures c.stage.session.phase.Dialing? ==>
              Negotiated(setup, c.arrived) == Outcome(c.stage.session.phase, c.taken, c.toClient)
  {
    hide Parse, Feed;
    var read := c.arrived[..c.taken];
    FeedIsParse(Begin(setup.room), read, setup.auth);
    assert [] + read == read;
    if c.stage.session.phase.Dialing? {
      NegotiatedStable(setup, read, c.arrived[c.taken..]);
      assert read + c.arrived[c.taken..] == c.arrived;
    }
  }

  lemma ArrivalKeepsInv(setup: Setup, c: Conn, bytes: Bytes)
    requires Inv(setup, c) && !c.clientDone
    ensures Inv(setup, c.(arrived := c.arrived + bytes))
  {
    hide Parse, Feed;
    assert (c.arrived + bytes)[..c.taken] == c.arrived[..c.taken];
    if Negotiated(setup, c.arrived).phase.Dialing? {
      NegotiatedStable(setup, c.arrived, bytes);
      if c.stage.Pumping? {
        var used := Negotiated(setup, c.arrived).used;
        assert (c.arrived + bytes)[used..c.taken] == c.arrived[used..c.taken];
      }
    }
  }

  lemma ReadKeepsInv(setup: Setup, c: Conn, n: nat)
    requires Inv(setup, c) && Enabled(c, Read(n))
    ensures Inv(setup, Apply(setup, c, Read(n)))
  {
    hide Parse, Feed;
    var s := c.stage.session;
    var chunk := c.arrived[c.taken..c.taken + n];
    FeedSplit(Begin(setup.room), c.arrived[..c.taken], chunk, setup.auth);
    assert c.arrived[..c.taken] + chunk == c.arrived[..c.taken + n];
    FeedTakesAll(s, chunk, setup.auth);
  }

  /** A chunk that does not exceed the pending read is taken whole. */
  lemma FeedTakesAll(s: Session, chunk: Bytes, auth: Credentials)
    requires s.Valid() && !s.phase.Final() && |s.buffered| + |chunk| <= s.phase.Need()
    ensures Feed(s, chunk, auth).used == |chunk|
  {
    hide Respond, Feed, Phase.Need;
    if |s.buffered| + |chunk| < s.phase.Need() {
      FeedEnd(s, chunk, auth);
    } else {
      FeedRead(s, chunk, auth);
    }
  }

  lemma LeavingNegotiationKeepsInv(setup: Setup, c: Conn, e: Event)
    requires Inv(setup, c) && c.stage.Negotiating? && Enabled(c, e)
    requires e.ReadFails? || e.GiveUp? || e.DialFails? || e.DialSucceeds?
    ensures Inv(setup, Apply(setup, c, e))
  {
    hide Parse, Feed;
    SessionIsOutcome(setup, c);
    OutputTranscript(c.arrived[..c.taken], setup.auth, setup.room);
    if c.stage.session.phase.Dialing? {
      OutputTranscript(c.arrived, setup.auth, setup.room);
      SentFits(Greeting, c.arrived, setup.auth, setup.room);
    }
  }

  lemma {:induction false} SentFits(p: Phase, input: Bytes, auth: Credentials, room: nat)
    ensures |Parse(p, input, auth, room).sent| <= room && Parse(p, input, auth, room).used <= |input|
    decreases p.Rank()
  {
    hide Parse, Respond, Phase.Need;
    if p.Final() || |input| < p.Need() {
      ParseEnd(p, input, auth, room);
    } else {
      ParseRead(p, input, auth, room);
      var a := Respond(p, input[..p.Need()], auth, room);
      SentFits(a.phase, input[p.Need()..], auth, room - |a.sent|);
    }
  }

  lemma UpReadKeepsInv(setup: Setup, c: Conn, n: nat)
    requires Inv(setup, c) && UpCopying(c) && Enabled(c, UpReads(n))
    ensures Inv(setup, Apply(setup, c, UpReads(n)))
  {
    hide Parse;
    var used, up := Negotiated(setup, c.arrived).used, c.stage.up;
    var chunk := c.arrived[c.taken..c.taken + n];
    assert c.arrived[used..c.taken] + chunk == c.arrived[used..c.taken + n];
    assert c.toTor + (up.buffered + chunk) == (c.toTor + up.buffered) + chunk;
  }

  lemma UpKeepsInv(setup: Setup, c: Conn, e: Event)
    requires Inv(setup, c) && UpCopying(c) && Enabled(c, e)
    requires e.UpWrites? || e.UpFinishes? || e.UpBreaks? || e.UpStops?
    ensures Inv(setup, Apply(setup, c, e))
  {
    hide Parse;
    if e.UpWrites? {
      var up := c.stage.up;
      assert (c.toTor + up.buffered[..e.n]) + up.buffered[e.n..] == c.toTor + up.buffered;
    }
  }

  lemma DownReadKeepsInv(setup: Setup, c: Conn, n: nat)
    requires Inv(setup, c) && DownCopying(c) && Enabled(c, DownReads(n))
    ensures Inv(setup, Apply(setup, c, DownReads(n)))
  {
    hide Parse;
    var down := c.stage.down;
    var chunk := c.torArrived[c.torTaken..c.torTaken + n];
    assert c.torArrived[..c.torTaken] + chunk == c.torArrived[..c.torTaken + n];
    assert c.toClient + (down.buffered + chunk) == (c.toClient + down.buffered) + chunk;
    assert GRANTED + (c.torArrived[..c.torTaken] + chunk) == (GRANTED + c.torArrived[..c.torTaken]) + chunk;
  }

  lemma DownKeepsInv(setup: Setup, c: Conn, e: Event)
    requires Inv(setup, c) && DownCopying(c) && Enabled(c, e)
    requires e.DownWrites? || e.DownFinishes? || e.DownBreaks? || e.DownStops?
    ensures Inv(setup, Apply(setup, c, e))
  {
    hide Parse;
    if e.DownWrites? {
      var down := c.stage.down;
      assert (c.toClient + down.buffered[..e.n]) + down.buffered[e.n..] == c.toClient + down.buffered;
    }
  }

  lemma ReplyKeepsInv(setup: Setup, c: Conn)
    requires Inv(setup, c) && c.stage.Replying?
    ensures Inv(setup, Apply(setup, c, Reply))
  {
    hide Parse;
    assert c.arrived[c.taken..c.taken] == [] && c.torArrived[..0] == [];
  }

  lemma TorKeepsInv(setup: Setup, c: Conn, e: Event)
    requires Inv(setup, c) && Enabled(c, e) && (e.TorSends? || e.TorCloses?)
    ensures Inv(setup, Apply(setup, c, e))
  {
    hide Parse;
    if e.TorSends? {
      assert (c.torArrived + e.bytes)[..c.torTaken] == c.torArrived[..c.torTaken];
    }
  }

  lemma StepKeepsInv(setup: Setup, c: Conn, e: Event)
    requires Inv(setup, c) && Enabled(c, e)
    ensures Inv(setup, Apply(setup, c, e))
  {
    hide Parse, Feed;
    match e
    case ClientSends(bytes) => ArrivalKeepsInv(setup, c, bytes);
    case ClientCloses | Cancel =>
    case TorSends(_) | TorCloses => TorKeepsInv(setup, c, e);
    case Read(n) => ReadKeepsInv(setup, c, n);
    case ReadFails | GiveUp | DialFails | DialSucceeds => LeavingNegotiationKeepsInv(setup, c, e);
    case Reply => ReplyKeepsInv(setup, c);
    case UpReads(n) => UpReadKeepsInv(setup, c, n);
    case UpWrites(_) | UpFinishes | UpBreaks | UpStops => UpKeepsInv(setup, c, e);
    case DownReads(n) => DownReadKeepsInv(setup, c, n);
    case DownWrites(_) | DownFinishes | DownBreaks | DownStops => DownKeepsInv(setup, c, e);
  }

  // ---- Whole runs -----------------------------------------------------------

  /** Every event is enabled when it happens. */
  ghost predicate ValidRun(setup: Setup, c: Conn, events: seq<Event>)
    decreases |events|
  {
    events == [] || (Enabled(c, events[0]) && ValidRun(setup, Apply(setup, c, events[0]), events[1..]))
  }

  ghost function Run(setup: Setup, c: Conn, events: seq<Event>): Conn
    requires ValidRun(setup, c, events)
    decreases |events|
  {
    if events == [] then c else Run(setup, Apply(setup, c, events[0]), events[1..])
  }

  lemma {:induction false} RunKeepsInv(setup: Setup, c: Conn, events: seq<Event>)
    requires Inv(setup, c) && ValidRun(setup, c, events)
    ensures Inv(setup, Run(setup, c, events))
    decreases |events|
  {
    hide Parse, Feed, Apply, Enabled, Inv;
    if events == [] {
    } else {
      StepKeepsInv(setup, c, events[0]);
      RunKeepsInv(setup, Apply(setup, c, events[0]), events[1..]);
    }
  }

  lemma AcceptInv(setup: Setup)
    ensures Inv(setup, Accept(setup))
  {
    hide Parse, Respond;
    assert Accept(setup).arrived[..0] == [];
    FeedEnd(Begin(setup.room), [], setup.auth);
  }

  /**
   * End-to-end byte conservation, for every run of one connection. While it
   * pumps, the client's bytes up to the end of the request were the accepted
   * message, and every later byte is in Tor, in the copier or still on the
   * socket, in order; the client has received the three replies and then a
   * prefix of what Tor sent, and the rest is in the other copier or unread.
   */
  lemma ByteConservation(setup: Setup, events: seq<Event>)
    requires ValidRun(setup, Accept(setup), events)
    requires Run(setup, Accept(setup), events).stage.Pumping?
    ensures var c := Run(setup, Accept(setup), events);
            var o := Negotiated(setup, c.arrived);
            && o.phase.Dialing? && o.used <= |c.arrived|
            && c.taken <= |c.arrived| && c.torTaken <= |c.torArrived|
            && c.toTor + c.stage.up.buffered + c.arrived[c.taken..] == c.arrived[o.used..]
            && c.toClient + c.stage.down.buffered + c.torArrived[c.torTaken..] == GRANTED + c.torArrived
  {
    hide Parse, Feed, Apply, ValidRun, Run;
    AcceptInv(setup);
    RunKeepsInv(setup, Accept(setup), events);
    var c := Run(setup, Accept(setup), events);
    var o := Negotiated(setup, c.arrived);
    assert c.arrived[o.used..] == c.arrived[o.used..c.taken] + c.arrived[c.taken..];
    assert c.torArrived == c.torArrived[..c.torTaken] + c.torArrived[c.torTaken..];
    assert (GRANTED + c.torArrived[..c.torTaken]) + c.torArrived[c.torTaken..] == GRANTED + c.torArrived;
  }

  /** A copy that ends at end of file has delivered everything its source ever sent. */
  lemma FinishedMeansDelivered(setup: Setup, events: seq<Event>)
    requires ValidRun(setup, Accept(setup), events)
    requires Run(setup, Accept(setup), events).stage.Pumping?
    ensures var c := Run(setup, Accept(setup), events);
            && (c.stage.up.status == Finished ==>
                  c.clientDone && Negotiated(setup, c.arrived).used <= |c.arrived|
                  && c.toTor == c.arrived[Negotiated(setup, c.arrived).used..])
            && (c.stage.down.status == Finished ==> c.torDone && c.toClient == GRANTED + c.torArrived)
  {
    hide Parse, Feed, Apply, ValidRun, Run;
    AcceptInv(setup);
    RunKeepsInv(setup, Accept(setup), events);
    FinishedDelivered(setup, Run(setup, Accept(setup), events));
  }

  /**
   * Before pumping nothing reaches Tor, and the client sees a prefix of one of
   * the fixed transcripts. More than both negotiation replies are sent only to
   * a client whose stream starts with an accepted message.
   */
  lemma NothingBeforeTheDial(setup: Setup, events: seq<Event>)
    requires ValidRun(setup, Accept(setup), events)
    ensures var c := Run(setup, Accept(setup), events);
            && (!c.stage.Pumping? ==> c.toTor == [])
            && (!c.stage.Pumping? ==>
                  c.toClient <= GRANTED || c.toClient <= NO_ACCEPTABLE_METHOD
                    || c.toClient <= METHOD_USER_PASS + AUTH_FAILED)
            && (|c.toClient| > 4 || c.stage.Replying? || c.stage.Pumping? ==>
                Negotiated(setup, c.arrived).phase.Dialing?)
  {
    hide Parse, Feed, Apply, ValidRun, Run;
    AcceptInv(setup);
    RunKeepsInv(setup, Accept(setup), events);
    var c := Run(setup, Accept(setup), events);
    if c.stage.Negotiating? {
      SessionIsOutcome(setup, c);
      OutputTranscript(c.arrived[..c.taken], setup.auth, setup.room);
    }
  }

  lemma RunCons(setup: Setup, c: Conn, e: Event, events: seq<Event>)
    requires Enabled(c, e) && ValidRun(setup, Apply(setup, c, e), events)
    ensures ValidRun(setup, c, [e] + events)
    ensures Run(setup, c, [e] + events) == Run(setup, Apply(setup, c, e), events)
  {
    hide Parse, Feed, Apply, Enabled;
    assert ([e] + events)[1..] == events;
  }

  /**
   * A client that has closed is never left hanging halfway: from any state of
   * a running upward copy some continuation writes everything and finishes.
   */
  lemma {:induction false} UpCanFinish(setup: Setup, c: Conn) returns (events: seq<Event>)
    requires Inv(setup, c) && UpCopying(c) && c.clientDone
    ensures ValidRun(setup, c, events)
    ensures var d := Run(setup, c, events);
            && d.stage.Pumping? && d.stage.up.status == Finished && d.arrived == c.arrived
            && Negotiated(setup, c.arrived).used <= |c.arrived|
            && d.toTor == c.arrived[Negotiated(setup, c.arrived).used..]
    decreases |c.arrived| - c.taken, |c.stage.up.buffered|
  {
    hide Parse, Feed, Inv, ValidRun, Run;
    var e :=
      if c.stage.up.buffered != [] then UpWrites(|c.stage.up.buffered|)
      else if c.taken < |c.arrived| then UpReads(|c.arrived| - c.taken)
      else UpFinishes;
    InvCounts(setup, c);
    StepKeepsInv(setup, c, e);
    var d := Apply(setup, c, e);
    if e.UpFinishes? {
      events := [];
      RunNothing(setup, d);
      FinishedDelivered(setup, d);
    } else {
      events := UpCanFinish(setup, d);
    }
    RunCons(setup, c, e, events);
    events := [e] + events;
  }

  /** Likewise downwards, once Tor has closed. */
  lemma {:induction false} DownCanFinish(setup: Setup, c: Conn) returns (events: seq<Event>)
    requires Inv(setup, c) && DownCopying(c) && c.torDone
    ensures ValidRun(setup, c, events)
    ensures var d := Run(setup, c, events);
            && d.stage.Pumping? && d.stage.down.status == Finished && d.torArrived == c.torArrived
            && d.toClient == GRANTED + c.torArrived
    decreases |c.torArrived| - c.torTaken, |c.stage.down.buffered|
  {
    hide Parse, Feed, Inv, ValidRun, Run;
    var e :=
      if c.stage.down.buffered != [] then DownWrites(|c.stage.down.buffered|)
      else if c.torTaken < |c.torArrived| then DownReads(|c.torArrived| - c.torTaken)
      else DownFinishes;
    InvCounts(setup, c);
    StepKeepsInv(setup, c, e);
    var d := Apply(setup, c, e);
    if e.DownFinishes? {
      events := [];
      RunNothing(setup, d);
      FinishedDelivered(setup, d);
    } else {
      events := DownCanFinish(setup, d);
    }
    RunCons(setup, c, e, events);
    events := [e] + events;
  }

  /** A step of one of the two copies, other than failing. */
  predicate CopyStep(e: Event) {
    e.UpReads? || e.UpWrites? || e.UpFinishes? || e.DownReads? || e.DownWrites? || e.DownFinishes?
  }

  /**
   * Complete delivery: in every run in which both sides have closed, no copy failed or was stopped, and neither copy
   * can move any more, both have finished, Tor has every byte behind the request and the client every byte of Tor's.
   */
  lemma QuietMeansDelivered(setup: Setup, events: seq<Event>)
    requires ValidRun(setup, Accept(setup), events)
    requires var c := Run(setup, Accept(setup), events);
             && c.stage.Pumping? && c.clientDone && c.torDone
             && c.stage.up.status in {Copying, Finished} && c.stage.down.status in {Copying, Finished}
             && forall e | CopyStep(e) :: !Enabled(c, e)
    ensures var c := Run(setup, Accept(setup), events);
            && c.stage.up.status == Finished && c.stage.down.status == Finished
            && Negotiated(setup, c.arrived).used <= |c.arrived|
            && c.toTor == c.arrived[Negotiated(setup, c.arrived).used..] && c.toClient == GRANTED + c.torArrived
  {
    hide Parse, Feed, Apply, ValidRun, Run;
    AcceptInv(setup);
    RunKeepsInv(setup, Accept(setup), events);
    var c := Run(setup, Accept(setup), events);
    assert !Enabled(c, UpReads(|c.arrived| - c.taken)) && !Enabled(c, UpWrites(|c.stage.up.buffered|));
    assert !Enabled(c, DownReads(|c.torArrived| - c.torTaken)) && !Enabled(c, DownWrites(|c.stage.down.buffered|));
    assert !Enabled(c, UpFinishes) && !Enabled(c, DownFinishes);
    FinishedDelivered(setup, c);
  }

  lemma InvCounts(setup: Setup, c: Conn)
    requires Inv(setup, c)
    ensures Counts(c)
  {
    hide Parse, Feed;
  }

  lemma RunNothing(setup: Setup, c: Conn)
    ensures ValidRun(setup, c, []) && Run(setup, c, []) == c
  {
  }

  lemma FinishedDelivered(setup: Setup, c: Conn)
    requires Inv(setup, c) && c.stage.Pumping?
    ensures c.stage.up.status == Finished ==>
              c.clientDone && Negotiated(setup, c.arrived).used <= |c.arrived|
              && c.toTor == c.arrived[Negotiated(setup, c.arrived).used..]
    ensures c.stage.down.status == Finished ==> c.torDone && c.toClient == GRANTED + c.torArrived
  {
    hide Parse, Feed;
    assert c.arrived[..|c.arrived|] == c.arrived;
    assert c.torArrived[..|c.torArrived|] == c.torArrived;
  }

  // ---- The way to the pump -----------------------------------------------------

  /**
   * In every reachable state in which the dial has succeeded, the success reply starts both copies if and only if the
   * client takes it; otherwise the client gets what fits, and the connection is dropped.
   */
  lemma ReplyDecides(setup: Setup, events: seq<Event>)
    requires ValidRun(setup, Accept(setup), events)
    requires Run(setup, Accept(setup), events).stage.Replying?
    ensures var c := Run(setup, Accept(setup), events); var d := Apply(setup, c, Reply);
            && d.arrived == c.arrived && d.taken == c.taken
            && if setup.room >= 14 then
                 && d.stage == Pumping(Copier([], Copying), Copier([], Copying)) && d.toClient == GRANTED
                 && GRANTED == [5, 2, 1, 0, 5, 0, 0, 1, 0, 0, 0, 0, 0, 0]
               else d.stage == Closed && d.toClient == GRANTED[..setup.room]
  {
    hide Parse, Feed, ValidRun, Run;
    AcceptInv(setup);
    RunKeepsInv(setup, Accept(setup), events);
  }

  /** A negotiation that has come to its end is not changed by what else has arrived. */
  lemma FinalIsOutcome(setup: Setup, c: Conn)
    requires Counts(c) && c.stage.Negotiating? && InNegotiation(setup, c) && c.stage.session.phase.Final()
    ensures Negotiated(setup, c.arrived).phase == c.stage.session.phase
  {
    hide Parse, Feed;
    var read, rest := c.arrived[..c.taken], c.arrived[c.taken..];
    FeedSplit(Begin(setup.room), read, rest, setup.auth);
    FeedEnd(c.stage.session, rest, setup.auth);
    assert read + rest == c.arrived;
    FeedIsParse(Begin(setup.room), c.arrived, setup.auth);
    assert [] + c.arrived == c.arrived;
  }

  /** A negotiation whose stream decides it goes on reading until it is decided. */
  lemma MoreToRead(setup: Setup, c: Conn)
    requires Inv(setup, c) && c.stage.Negotiating? && Negotiated(setup, c.arrived).phase != Dead(Io)
    ensures if c.stage.session.phase.Final() then c.stage.session.phase == Negotiated(setup, c.arrived).phase
            else Enabled(c, Read(1))
  {
    hide Parse, Feed;
    if c.stage.session.phase.Final() {
      FinalIsOutcome(setup, c);
    } else {
      SessionIsOutcome(setup, c);
      assert c.arrived[..|c.arrived|] == c.arrived;
    }
  }

  lemma {:induction false} ReadThrough(setup: Setup, c: Conn) returns (events: seq<Event>)
    requires Inv(setup, c) && c.stage.Negotiating? && Negotiated(setup, c.arrived).phase != Dead(Io)
    ensures ValidRun(setup, c, events)
    ensures var d := Run(setup, c, events);
            && Inv(setup, d) && d.arrived == c.arrived
            && d.stage.Negotiating? && d.stage.session.phase == Negotiated(setup, c.arrived).phase
    decreases |c.arrived| - c.taken
  {
    hide Parse, Feed, Inv, ValidRun, Run, InNegotiation;
    MoreToRead(setup, c);
    if c.stage.session.phase.Final() {
      events := [];
      RunNothing(setup, c);
    } else {
      StepKeepsInv(setup, c, Read(1));
      events := ReadThrough(setup, Apply(setup, c, Read(1)));
      RunCons(setup, c, Read(1), events);
      events := [Read(1)] + events;
    }
  }

  lemma {:induction false} RunAppend(setup: Setup, c: Conn, first: seq<Event>, second: seq<Event>)
    requires ValidRun(setup, c, first) && ValidRun(setup, Run(setup, c, first), second)
    ensures ValidRun(setup, c, first + second)
    ensures Run(setup, c, first + second) == Run(setup, Run(setup, c, first), second)
    decreases |first|
  {
    hide Apply, Enabled;
    if first == [] {
      assert first + second == second;
    } else {
      RunAppend(setup, Apply(setup, c, first[0]), first[1..], second);
      assert (first + second)[1..] == first[1..] + second;
    }
  }

  /** From a finished negotiation, when the dial succeeds and the client takes the reply. */
  lemma DialAndReply(setup: Setup, c: Conn) returns (events: seq<Event>)
    requires Inv(setup, c) && c.stage.Negotiating? && c.stage.session.phase.Dialing? && setup.room >= 14
    ensures ValidRun(setup, c, events)
    ensures var d := Run(setup, c, events);
            && d.stage == Pumping(Copier([], Copying), Copier([], Copying))
            && d.arrived == c.arrived && d.taken == c.taken && d.toClient == GRANTED && d.toTor == []
            && d.taken == Negotiated(setup, c.arrived).used
  {
    hide Parse, Feed;
    var c1 := Apply(setup, c, DialSucceeds);
    StepKeepsInv(setup, c, DialSucceeds);
    var c2 := Apply(setup, c1, Reply);
    hide Inv, Apply, Enabled, ValidRun, Run;
    RunNothing(setup, c2);
    RunCons(setup, c1, Reply, []);
    RunCons(setup, c, DialSucceeds, [Reply] + []);
    events := [DialSucceeds] + ([Reply] + []);
  }

  /**
   * Every well-formed message with the right login, followed by anything, can get its connection pumping: with exactly
   * the message taken from the socket, the three replies sent, and nothing lost of what follows.
   */
  lemma AcceptedMessagePumps(setup: Setup, m: Message, suffix: Bytes) returns (events: seq<Event>)
    requires ValidMessage(m) && m.login == setup.auth && setup.room >= 14
    ensures ValidRun(setup, Accept(setup), events)
    ensures var c := Run(setup, Accept(setup), events);
            && c.stage == Pumping(Copier([], Copying), Copier([], Copying))
            && c.arrived == Encode(m) + suffix && c.taken == |Encode(m)|
            && c.toClient == GRANTED && c.toTor == []
  {
    hide Parse, Feed, Encode, Inv, ValidRun, Run;
    var start, stream := Accept(setup), Encode(m) + suffix;
    AcceptInv(setup);
    RoundTrip(m, suffix, setup.auth, setup.room);
    var sent := Apply(setup, start, ClientSends(stream));
    StepKeepsInv(setup, start, ClientSends(stream));
    assert sent.arrived == stream;
    var reading := ReadThrough(setup, sent);
    var read := Run(setup, sent, reading);
    var dial := DialAndReply(setup, read);
    RunAppend(setup, sent, reading, dial);
    RunCons(setup, start, ClientSends(stream), reading + dial);
    events := [ClientSends(stream)] + (reading + dial);
  }

  // ---- What the history says ---------------------------------------------------

  function ClientBytes(events: seq<Event>): Bytes {
    if events == [] then []
    else (if events[0].ClientSends? then events[0].bytes else []) + ClientBytes(events[1..])
  }

  function TorBytes(events: seq<Event>): Bytes {
    if events == [] then []
    else (if events[0].TorSends? then events[0].bytes else []) + TorBytes(events[1..])
  }

  /** What has arrived from the client is what it sent, in order. */
  lemma {:induction false} ClientIsHeard(setup: Setup, c: Conn, events: seq<Event>)
    requires ValidRun(setup, c, events)
    ensures Run(setup, c, events).arrived == c.arrived + ClientBytes(events)
    decreases |events|
  {
    if events == [] {
    } else {
      StepRecords(setup, c, events[0]);
      var d := Apply(setup, c, events[0]);
      hide Apply, Enabled;
      ClientIsHeard(setup, d, events[1..]);
      var added := if events[0].ClientSends? then events[0].bytes else [];
      assert d.arrived == c.arrived + added;
      assert ClientBytes(events) == added + ClientBytes(events[1..]);
      hide ClientBytes, Run, ValidRun;
      assert (c.arrived + added) + ClientBytes(events[1..]) == c.arrived + (added + ClientBytes(events[1..]));
    }
  }

  /** Likewise from Tor. */
  lemma {:induction false} TorIsHeard(setup: Setup, c: Conn, events: seq<Event>)
    requires ValidRun(setup, c, events)
    ensures Run(setup, c, events).torArrived == c.torArrived + TorBytes(events)
    decreases |events|
  {
    if events == [] {
    } else {
      StepRecords(setup, c, events[0]);
      var d := Apply(setup, c, events[0]);
      hide Apply, Enabled;
      TorIsHeard(setup, d, events[1..]);
      var added := if events[0].TorSends? then events[0].bytes else [];
      assert d.torArrived == c.torArrived + added;
      assert TorBytes(events) == added + TorBytes(events[1..]);
      hide TorBytes, Run, ValidRun;
      assert (c.torArrived + added) + TorBytes(events[1..]) == c.torArrived + (added + TorBytes(events[1..]));
    }
  }

  /** Closings and the cancel are recorded exactly if they happened. */
  lemma {:induction false} RunRecordsFlags(setup: Setup, c: Conn, events: seq<Event>)
    requires ValidRun(setup, c, events)
    ensures var d := Run(setup, c, events);
            && (d.clientDone <==> c.clientDone || ClientCloses in events)
            && (d.torDone <==> c.torDone || TorCloses in events)
            && (d.cancelled <==> c.cancelled || Cancel in events)
    decreases |events|
  {
    if events == [] {
    } else {
      StepRecords(setup, c, events[0]);
      hide Apply, Enabled;
      RunRecordsFlags(setup, Apply(setup, c, events[0]), events[1..]);
      assert events == [events[0]] + events[1..];
    }
  }

  lemma StepRecords(setup: Setup, c: Conn, e: Event)
    requires Enabled(c, e)
    ensures var d := Apply(setup, c, e);
            && d.arrived == c.arrived + (if e.ClientSends? then e.bytes else [])
            && d.torArrived == c.torArrived + (if e.TorSends? then e.bytes else [])
            && (d.clientDone <==> c.clientDone || e == ClientCloses)
            && (d.torDone <==> c.torDone || e == TorCloses)
            && (d.cancelled <==> c.cancelled || e == Cancel)
  {
    hide Feed;
  }

  predicate UpIs(c: Conn, status: Status) {
    c.stage.Pumping? && c.stage.up.status == status
  }

  predicate DownIs(c: Conn, status: Status) {
    c.stage.Pumping? && c.stage.down.status == status
  }

  lemma StepEnds(setup: Setup, c: Conn, e: Event)
    requires Enabled(c, e)
    ensures var d := Apply(setup, c, e);
            && (UpIs(d, Finished) <==> UpIs(c, Finished) || e == UpFinishes)
            && (UpIs(d, Broken) <==> UpIs(c, Broken) || e == UpBreaks)
            && (UpIs(d, Stopped) <==> UpIs(c, Stopped) || e == UpStops)
            && (DownIs(d, Finished) <==> DownIs(c, Finished) || e == DownFinishes)
            && (DownIs(d, Broken) <==> DownIs(c, Broken) || e == DownBreaks)
            && (DownIs(d, Stopped) <==> DownIs(c, Stopped) || e == DownStops)
            && (c.stage.Pumping? ==> d.stage.Pumping?)
  {
    hide Feed;
  }

  /** How a copy ended is how the run ended it, and ended copies stay as they are. */
  lemma {:induction false} RunEnds(setup: Setup, c: Conn, events: seq<Event>)
    requires ValidRun(setup, c, events)
    ensures var d := Run(setup, c, events);
            && (UpIs(d, Finished) <==> UpIs(c, Finished) || UpFinishes in events)
            && (UpIs(d, Broken) <==> UpIs(c, Broken) || UpBreaks in events)
            && (UpIs(d, Stopped) <==> UpIs(c, Stopped) || UpStops in events)
            && (DownIs(d, Finished) <==> DownIs(c, Finished) || DownFinishes in events)
            && (DownIs(d, Broken) <==> DownIs(c, Broken) || DownBreaks in events)
            && (DownIs(d, Stopped) <==> DownIs(c, Stopped) || DownStops in events)
    decreases |events|
  {
    if events == [] {
    } else {
      var e, tail := events[0], events[1..];
      StepEnds(setup, c, e);
      hide Apply, Enabled, UpIs, DownIs;
      RunEnds(setup, Apply(setup, c, e), tail);
      assert events == [e] + tail;
    }
  }

  /** More than the two negotiation replies, or a pump, or the wait for it. */
  predicate BeyondTheDial(c: Conn) {
    c.stage.Replying? || c.stage.Pumping? || |c.toClient| > 4
  }

  lemma NegotiationIsBefore(setup: Setup, c: Conn)
    requires Inv(setup, c) && c.stage.Negotiating?
    ensures |c.toClient| <= 4
  {
    hide Parse, Feed;
    SessionIsOutcome(setup, c);
    OutputTranscript(c.arrived[..c.taken], setup.auth, setup.room);
  }

  lemma OnlyTheDialLeadsBeyond(setup: Setup, c: Conn, e: Event)
    requires Inv(setup, c) && Enabled(c, e) && !BeyondTheDial(c) && e != DialSucceeds
    ensures !BeyondTheDial(Apply(setup, c, e))
  {
    hide Parse, Feed, Inv;
    StepKeepsInv(setup, c, e);
    if e.Read? {
      NegotiationIsBefore(setup, Apply(setup, c, e));
    }
  }

  /** The success reply and the pump need a dial that succeeded in this run. */
  lemma {:induction false} NoSuccessWithoutTheDial(setup: Setup, c: Conn, events: seq<Event>)
    requires Inv(setup, c) && ValidRun(setup, c, events) && !BeyondTheDial(c)
    ensures BeyondTheDial(Run(setup, c, events)) ==> DialSucceeds in events
    decreases |events|
  {
    if events == [] {
    } else if events[0] != DialSucceeds {
      OnlyTheDialLeadsBeyond(setup, c, events[0]);
      StepKeepsInv(setup, c, events[0]);
      hide Apply, Enabled, Inv, BeyondTheDial;
      NoSuccessWithoutTheDial(setup, Apply(setup, c, events[0]), events[1..]);
      assert events == [events[0]] + events[1..];
    }
  }

  /**
   * Complete delivery, by the history alone: both sides have closed, no copy was broken or stopped, and neither can
   * move. Then Tor got what the client sent behind its message, and the client the replies and what Tor sent.
   */
  lemma EverythingDelivered(setup: Setup, events: seq<Event>)
    requires ValidRun(setup, Accept(setup), events)
    requires ClientCloses in events && TorCloses in events
    requires UpBreaks !in events && UpStops !in events && DownBreaks !in events && DownStops !in events
    requires var c := Run(setup, Accept(setup), events); c.stage.Pumping? && forall e | CopyStep(e) :: !Enabled(c, e)
    ensures var c := Run(setup, Accept(setup), events); var used := Negotiated(setup, ClientBytes(events)).used;
            && used <= |ClientBytes(events)| && c.toTor == ClientBytes(events)[used..]
            && c.toClient == GRANTED + TorBytes(events)
  {
    hide Parse, Feed, Apply, Enabled, ValidRun, Run, CopyStep;
    var start := Accept(setup);
    ClientIsHeard(setup, start, events);
    TorIsHeard(setup, start, events);
    RunRecordsFlags(setup, start, events);
    RunEnds(setup, start, events);
    assert [] + ClientBytes(events) == ClientBytes(events) && [] + TorBytes(events) == TorBytes(events);
    QuietMeansDelivered(setup, events);
  }

  // ---- Failing and stopping ----------------------------------------------------

  /** A copy can be stopped exactly while it runs and after the cancel, and can break at any time. */
  lemma CopiesStopIff(setup: Setup, events: seq<Event>)
    requires ValidRun(setup, Accept(setup), events)
    ensures var c := Run(setup, Accept(setup), events);
            && (Enabled(c, UpStops) <==> UpCopying(c) && Cancel in events)
            && (Enabled(c, DownStops) <==> DownCopying(c) && Cancel in events)
            && (Enabled(c, UpBreaks) <==> UpCopying(c)) && (Enabled(c, DownBreaks) <==> DownCopying(c))
  {
    RunRecordsFlags(setup, Accept(setup), events);
    hide Run, ValidRun, Apply;
  }

  /** However far a negotiation has come, it can fail there: in a read, on the client's account, or in the dial. */
  lemma NegotiationCanFail(setup: Setup, c: Conn)
    requires c.stage.Negotiating?
    ensures var e := if c.stage.session.phase.Dialing? then DialFails
                     else if c.stage.session.phase.Dead? then GiveUp
                     else ReadFails;
            Enabled(c, e) && Apply(setup, c, e) == c.(stage := Closed)
  {
  }

  /** Every refused stream can be read to the refusal, answered in full, and dropped with nothing sent to Tor. */
  lemma RefusedIsDropped(setup: Setup, stream: Bytes) returns (events: seq<Event>)
    requires Negotiated(setup, stream).phase.Dead? && Negotiated(setup, stream).phase != Dead(Io)
    ensures ValidRun(setup, Accept(setup), events)
    ensures var c, o := Run(setup, Accept(setup), events), Negotiated(setup, stream);
            c.stage.Closed? && c.arrived == stream && c.taken == o.used && c.toClient == o.sent && c.toTor == []
  {
    hide Parse, Feed, Inv, ValidRun, Run;
    var start := Accept(setup);
    AcceptInv(setup);
    var sent := Apply(setup, start, ClientSends(stream));
    StepKeepsInv(setup, start, ClientSends(stream));
    assert sent.arrived == stream;
    var reading := ReadThrough(setup, sent);
    var read := Run(setup, sent, reading);
    WhatWasTold(setup, read);
    RunNothing(setup, Apply(setup, read, GiveUp));
    RunCons(setup, read, GiveUp, []);
    RunAppend(setup, sent, reading, [GiveUp] + []);
    RunCons(setup, start, ClientSends(stream), reading + ([GiveUp] + []));
    events := [ClientSends(stream)] + (reading + ([GiveUp] + []));
  }

  /** A negotiation that has ended otherwise than in an I/O failure has taken and told what its outcome says. */
  lemma WhatWasTold(setup: Setup, c: Conn)
    requires Inv(setup, c) && c.stage.Negotiating? && c.stage.session.phase.Final()
    requires c.stage.session.phase != Dead(Io)
    ensures Negotiated(setup, c.arrived) == Outcome(c.stage.session.phase, c.taken, c.toClient) && c.toTor == []
  {
    hide Parse, Feed;
    SessionIsOutcome(setup, c);
    var read, rest := c.arrived[..c.taken], c.arrived[c.taken..];
    Extension(Greeting, read, rest, setup.auth, setup.room);
    assert read + rest == c.arrived;
  }

  /** Each side may speak until it has closed; Tor from the dial on, before the client has its success reply. */
  lemma WhoMaySpeak(setup: Setup, events: seq<Event>, bytes: Bytes)
    requires ValidRun(setup, Accept(setup), events)
    ensures var c := Run(setup, Accept(setup), events);
            && (Enabled(c, ClientSends(bytes)) <==> ClientCloses !in events)
            && (Enabled(c, TorSends(bytes)) <==> (c.stage.Replying? || c.stage.Pumping?) && TorCloses !in events)
            && (Enabled(c, ClientCloses) <==> ClientCloses !in events)
            && (Enabled(c, TorCloses) <==> (c.stage.Replying? || c.stage.Pumping?) && TorCloses !in events)
  {
    RunRecordsFlags(setup, Accept(setup), events);
    hide Run, ValidRun, Apply;
  }
}
