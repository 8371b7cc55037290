/**
 * The SOCKS5 negotiation of the Tor front end as a function of the client's
 * byte stream (rust/core/src/engine/arti_runtime.rs). A phase names the read
 * the server is blocked in; `Parse` performs whole reads on a closed stream and
 * `Feed` consumes bytes as they arrive.
 */
module Socks5 {
  import opened Util
  import Utf8

  datatype Host =
    | IPv4(octets: Bytes)
    | Name(text: Bytes)
    | IPv6(octets: Bytes)

  datatype Target = Target(host: Host, port: nat)

  datatype Credentials = Credentials(user: Bytes, pass: Bytes)

  datatype Error =
    | Io
    | NotSocks5
    | RefusedUserPass
    | BadAuthVersion
    | BadCredentials
    | UnsupportedRequest
    | BadAddressType
    | BadHost

  datatype Phase =
    | Greeting
    | Methods(count: nat)
    | AuthVersion
    | UserLength
    | User(length: nat)
    | PassLength(user: Bytes)
    | Pass(user: Bytes, length: nat)
    | Head
    | IPv4Body
    | NameLength
    | NameBody(length: nat)
    | IPv6Body
    | Dialing(target: Target)
    | Dead(error: Error)
  {
    predicate Final() {
      Dialing? || Dead?
    }

    /** How many bytes the pending read asks for. */
    function Need(): nat {
      match this
      case Greeting => 2
      case Methods(n) => n
      case AuthVersion | UserLength | PassLength(_) | NameLength => 1
      case User(n) => n
      case Pass(_, n) => n
      case Head => 4
      case IPv4Body => 6
      case NameBody(n) => n + 2
      case IPv6Body => 18
      case Dialing(_) | Dead(_) => 0
    }

    function Rank(): nat {
      match this
      case Greeting => 11
      case Methods(_) => 10
      case AuthVersion => 9
      case UserLength => 8
      case User(_) => 7
      case PassLength(_) => 6
      case Pass(_, _) => 5
      case Head => 4
      case NameLength => 3
      case IPv4Body | NameBody(_) | IPv6Body => 2
      case Dialing(_) | Dead(_) => 0
    }

    /** Length fields hold one octet. */
    predicate Sized() {
      match this
      case Methods(n) => n < 256
      case User(n) => n < 256
      case Pass(_, n) => n < 256
      case NameBody(n) => n < 256
      case _ => true
    }
  }

  const METHOD_USER_PASS: Bytes := [0x05, 0x02]
  const NO_ACCEPTABLE_METHOD: Bytes := [0x05, 0xFF]
  const AUTH_OK: Bytes := [0x01, 0x00]
  const AUTH_FAILED: Bytes := [0x01, 0x01]
  const REPLY_SUCCEEDED: Bytes := [0x05, 0x00, 0x00, 0x01, 0, 0, 0, 0, 0, 0]
  const PRELUDE: Bytes := METHOD_USER_PASS + AUTH_OK

  /** `u16::from_be_bytes`. */
  function FromBe16(high: byte, low: byte): (n: nat)
    ensures n < 0x1_0000
  {
    256 * (high as nat) + (low as nat)
  }

  function ToBe16(n: nat): (b: Bytes)
    requires n < 0x1_0000
    ensures |b| == 2 && FromBe16(b[0], b[1]) == n
  {
    [(n / 256) as byte, (n % 256) as byte]
  }

  datatype Reaction = Reaction(next: Phase, reply: Bytes)

  /** What the server does once the pending read has delivered `got`. */
  function React(p: Phase, got: Bytes, auth: Credentials): (r: Reaction)
    requires !p.Final() && |got| == p.Need()
    ensures r.next.Rank() < p.Rank()
    ensures r.next.Sized()
  {
    match p
    case Greeting =>
      Reaction(if got[0] != 0x05 then Dead(NotSocks5) else Methods(got[1] as nat), [])
    case Methods(_) =>
      if 0x02 !in got then Reaction(Dead(RefusedUserPass), NO_ACCEPTABLE_METHOD)
      else Reaction(AuthVersion, METHOD_USER_PASS)
    case AuthVersion =>
      Reaction(if got[0] != 0x01 then Dead(BadAuthVersion) else UserLength, [])
    case UserLength => Reaction(User(got[0] as nat), [])
    case User(_) => Reaction(PassLength(got), [])
    case PassLength(user) => Reaction(Pass(user, got[0] as nat), [])
    case Pass(user, _) =>
      if user == auth.user && got == auth.pass then Reaction(Head, AUTH_OK)
      else Reaction(Dead(BadCredentials), AUTH_FAILED)
    case Head =>
      var next :=
        if got[0] != 0x05 || got[1] != 0x01 then Dead(UnsupportedRequest)
        else if got[3] == 0x01 then IPv4Body
        else if got[3] == 0x03 then NameLength
        else if got[3] == 0x04 then IPv6Body
        else Dead(BadAddressType);
      Reaction(next, [])
    case IPv4Body => Reaction(Dialing(Target(IPv4(got[..4]), FromBe16(got[4], got[5]))), [])
    case NameLength => Reaction(NameBody(got[0] as nat), [])
    case NameBody(n) =>
      if !Utf8.Valid(got[..n]) then Reaction(Dead(BadHost), [])
      else Reaction(Dialing(Target(Name(got[..n]), FromBe16(got[n], got[n + 1]))), [])
    case IPv6Body => Reaction(Dialing(Target(IPv6(got[..16]), FromBe16(got[16], got[17]))), [])
  }

  datatype Answer = Answer(phase: Phase, sent: Bytes)

  /** The reaction as the client sees it: writing fails once it takes no more bytes. */
  function Respond(p: Phase, got: Bytes, auth: Credentials, room: nat): (a: Answer)
    requires !p.Final() && |got| == p.Need()
    ensures a.phase.Rank() < p.Rank()
    ensures |a.sent| <= room
    ensures a.phase.Sized()
  {
    var r := React(p, got, auth);
    if |r.reply| > room then Answer(Dead(Io), r.reply[..room]) else Answer(r.next, r.reply)
  }

  /** How a negotiation ends, how much input it consumed and what it sent. */
  datatype Outcome = Outcome(phase: Phase, used: nat, sent: Bytes)

  /**
   * The negotiation on a stream that carries `input` and then ends, towards a
   * client that takes `room` more bytes before writing to it fails.
   */
  function Parse(p: Phase, input: Bytes, auth: Credentials, room: nat): (o: Outcome)
    decreases p.Rank()
  {
    if p.Final() then Outcome(p, 0, [])
    else if |input| < p.Need() then Outcome(Dead(Io), |input|, [])
    else
      var a := Respond(p, input[..p.Need()], auth, room);
      var rest := Parse(a.phase, input[p.Need()..], auth, room - |a.sent|);
      Outcome(rest.phase, p.Need() + rest.used, a.sent + rest.sent)
  }

  /** `o` after `used` more bytes and `sent` earlier replies. */
  function After(used: nat, sent: Bytes, o: Outcome): Outcome {
    Outcome(o.phase, used + o.used, sent + o.sent)
  }

  /** `Parse`, one read at a time. */
  lemma ParseRead(p: Phase, input: Bytes, auth: Credentials, room: nat)
    requires !p.Final() && p.Need() <= |input|
    ensures var a := Respond(p, input[..p.Need()], auth, room);
            var rest := Parse(a.phase, input[p.Need()..], auth, room - |a.sent|);
            Parse(p, input, auth, room) == Outcome(rest.phase, p.Need() + rest.used, a.sent + rest.sent)
  {
    hide Respond, Phase.Need, Phase.Rank, Phase.Final;
    assert !(p.Final() || |input| < p.Need());
  }

  lemma ParseEnd(p: Phase, input: Bytes, auth: Credentials, room: nat)
    requires p.Final() || |input| < p.Need()
    ensures Parse(p, input, auth, room)
         == if p.Final() then Outcome(p, 0, []) else Outcome(Dead(Io), |input|, [])
  {
    hide Respond, Phase.Need, Phase.Final;
  }

  /** A negotiation in progress: the pending read and the bytes it has so far. */
  datatype Session = Session(phase: Phase, buffered: Bytes, room: nat) {
    predicate Valid() {
      if phase.Final() then buffered == [] else |buffered| <= phase.Need()
    }

    /** The pending read really is waiting. */
    predicate Settled() {
      Valid() && (phase.Final() || |buffered| < phase.Need())
    }

    /** The stream ends here: a read that is still waiting fails. */
    function Closed(): Phase {
      if phase.Final() then phase else Dead(Io)
    }
  }

  function Begin(room: nat): (s: Session)
    ensures s.Settled()
  {
    Session(Greeting, [], room)
  }

  /** The session after some input, how much of that input it took and what it sent. */
  datatype Fed = Fed(session: Session, used: nat, sent: Bytes)

  /** Bytes arrive. Once the negotiation is over nothing more is taken from the stream. */
  function Feed(s: Session, chunk: Bytes, auth: Credentials): (f: Fed)
    requires s.Valid()
    ensures f.session.Settled() && f.used <= |chunk|
    ensures f.session.phase.Final() || f.used == |chunk|
    decreases s.phase.Rank()
  {
    if s.phase.Final() then Fed(s, 0, [])
    else if |s.buffered| + |chunk| < s.phase.Need() then
      Fed(s.(buffered := s.buffered + chunk), |chunk|, [])
    else
      var k := s.phase.Need() - |s.buffered|;
      var a := Respond(s.phase, s.buffered + chunk[..k], auth, s.room);
      var f := Feed(Session(a.phase, [], s.room - |a.sent|), chunk[k..], auth);
      Fed(f.session, k + f.used, a.sent + f.sent)
  }

  /** `Feed`, one read at a time. */
  lemma FeedRead(s: Session, chunk: Bytes, auth: Credentials)
    requires s.Valid() && !s.phase.Final() && s.phase.Need() <= |s.buffered| + |chunk|
    ensures var k := s.phase.Need() - |s.buffered|;
            var a := Respond(s.phase, s.buffered + chunk[..k], auth, s.room);
            var f := Feed(Session(a.phase, [], s.room - |a.sent|), chunk[k..], auth);
            Feed(s, chunk, auth) == Fed(f.session, k + f.used, a.sent + f.sent)
  {
    hide Respond, Phase.Need, Phase.Final;
  }

  lemma FeedEnd(s: Session, chunk: Bytes, auth: Credentials)
    requires s.Valid() && (s.phase.Final() || |s.buffered| + |chunk| < s.phase.Need())
    ensures Feed(s, chunk, auth)
         == if s.phase.Final() then Fed(s, 0, []) else Fed(s.(buffered := s.buffered + chunk), |chunk|, [])
  {
    hide Respond, Phase.Need, Phase.Final;
  }

  function FeedAll(s: Session, chunks: seq<Bytes>, auth: Credentials): (f: Fed)
    requires s.Settled()
    ensures f.session.Settled()
    decreases |chunks|
  {
    if chunks == [] then Fed(s, 0, [])
    else
      var first := Feed(s, chunks[0], auth);
      var rest := FeedAll(first.session, chunks[1..], auth);
      Fed(rest.session, first.used + rest.used, first.sent + rest.sent)
  }

  function Concat(chunks: seq<Bytes>): Bytes {
    if chunks == [] then [] else chunks[0] + Concat(chunks[1..])
  }

  // ---- Chunking -------------------------------------------------------------

  /** Splitting the stream at any point does not change the negotiation. */
  lemma {:induction false} FeedSplit(s: Session, a: Bytes, b: Bytes, auth: Credentials)
    requires s.Valid()
    ensures var first := Feed(s, a, auth);
            var second := Feed(first.session, b, auth);
            Feed(s, a + b, auth) == Fed(second.session, first.used + second.used, first.sent + second.sent)
    decreases s.phase.Rank()
  {
    hide Respond, Feed, Phase.Need;
    var need := s.phase.Need();
    if s.phase.Final() {
      FeedEnd(s, a, auth);
      FeedEnd(s, b, auth);
      FeedEnd(s, a + b, auth);
    } else if |s.buffered| + |a| < need {
      FeedEnd(s, a, auth);
      var waiting := s.(buffered := s.buffered + a);
      assert s.buffered + (a + b) == waiting.buffered + b;
      if |s.buffered| + |a + b| < need {
        FeedEnd(waiting, b, auth);
        FeedEnd(s, a + b, auth);
      } else {
        var k := need - |s.buffered|;
        assert (a + b)[..k] == a + b[..k - |a|];
        assert s.buffered + (a + b)[..k] == waiting.buffered + b[..k - |a|];
        assert (a + b)[k..] == b[k - |a|..];
        FeedRead(waiting, b, auth);
        FeedRead(s, a + b, auth);
      }
    } else {
      var k := need - |s.buffered|;
      assert (a + b)[..k] == a[..k];
      assert (a + b)[k..] == a[k..] + b;
      FeedRead(s, a, auth);
      FeedRead(s, a + b, auth);
      var answer := Respond(s.phase, s.buffered + a[..k], auth, s.room);
      var next := Session(answer.phase, [], s.room - |answer.sent|);
      FeedSplit(next, a[k..], b, auth);
      var first := Feed(next, a[k..], auth);
      var second := Feed(first.session, b, auth);
      assert (answer.sent + first.sent) + second.sent == answer.sent + (first.sent + second.sent);
    }
  }

  lemma {:induction false} FeedAllIsFeed(s: Session, chunks: seq<Bytes>, auth: Credentials)
    requires s.Settled()
    ensures FeedAll(s, chunks, auth) == Feed(s, Concat(chunks), auth)
    decreases |chunks|
  {
    hide Feed;
    if chunks == [] {
      assert s.buffered + [] == s.buffered;
      FeedEnd(s, [], auth);
    } else {
      var first := Feed(s, chunks[0], auth);
      FeedAllIsFeed(first.session, chunks[1..], auth);
      FeedSplit(s, chunks[0], Concat(chunks[1..]), auth);
    }
  }

  /** Reading as bytes arrive agrees with whole reads on the closed stream. */
  lemma {:induction false} FeedIsParse(s: Session, chunk: Bytes, auth: Credentials)
    requires s.Valid()
    ensures var f := Feed(s, chunk, auth);
            Parse(s.phase, s.buffered + chunk, auth, s.room)
            == Outcome(f.session.Closed(), |s.buffered| + f.used, f.sent)
    decreases s.phase.Rank()
  {
    hide Respond, Feed, Parse, Phase.Need;
    var need, input := s.phase.Need(), s.buffered + chunk;
    if s.phase.Final() || |input| < need {
      FeedEnd(s, chunk, auth);
      ParseEnd(s.phase, input, auth, s.room);
    } else {
      var k := need - |s.buffered|;
      assert input[..need] == s.buffered + chunk[..k];
      assert input[need..] == [] + chunk[k..];
      FeedRead(s, chunk, auth);
      ParseRead(s.phase, input, auth, s.room);
      var answer := Respond(s.phase, input[..need], auth, s.room);
      FeedIsParse(Session(answer.phase, [], s.room - |answer.sent|), chunk[k..], auth);
    }
  }

  /**
   * However the stream is cut into chunks, the negotiation ends with the same
   * target or error, the same number of bytes consumed and the same transcript.
   */
  lemma ChunkingIndependence(chunks: seq<Bytes>, auth: Credentials, room: nat)
    ensures var f := FeedAll(Begin(room), chunks, auth);
            Parse(Greeting, Concat(chunks), auth, room) == Outcome(f.session.Closed(), f.used, f.sent)
  {
    hide Parse, Feed, FeedAll;
    FeedAllIsFeed(Begin(room), chunks, auth);
    FeedIsParse(Begin(room), Concat(chunks), auth);
    assert [] + Concat(chunks) == Concat(chunks);
  }

  // ---- Truncation and extension ---------------------------------------------

  /** Cutting the stream before its last consumed byte starves a read; cutting it later changes nothing. */
  lemma {:induction false} Truncation(p: Phase, input: Bytes, auth: Credentials, room: nat, k: nat)
    requires k <= |input|
    ensures var o := Parse(p, input, auth, room);
            var cut := Parse(p, input[..k], auth, room);
            if k < o.used then cut.phase == Dead(Io) && cut.used == k && cut.sent <= o.sent else cut == o
    decreases p.Rank()
  {
    hide Respond, Parse, Phase.Need;
    var need := p.Need();
    if p.Final() || |input| < need {
      ParseEnd(p, input, auth, room);
      ParseEnd(p, input[..k], auth, room);
      assert k == |input| ==> input[..k] == input;
    } else {
      ParseRead(p, input, auth, room);
      if k < need {
        ParseEnd(p, input[..k], auth, room);
      } else {
        assert input[..k][..need] == input[..need];
        assert input[..k][need..] == input[need..][..k - need];
        ParseRead(p, input[..k], auth, room);
        var answer := Respond(p, input[..need], auth, room);
        Truncation(answer.phase, input[need..], auth, room - |answer.sent|, k - need);
      }
    }
  }

  /** A negotiation that did not starve is settled: what follows on the stream is not looked at. */
  lemma Extension(p: Phase, input: Bytes, suffix: Bytes, auth: Credentials, room: nat)
    requires Parse(p, input, auth, room).phase != Dead(Io)
    ensures Parse(p, input + suffix, auth, room) == Parse(p, input, auth, room)
  {
    hide Parse;
    assert (input + suffix)[..|input|] == input;
    Truncation(p, input + suffix, auth, room, |input|);
  }

  /** The dial is reached on exactly those prefixes that contain every consumed byte. */
  lemma DialExactlyFrom(input: Bytes, auth: Credentials, room: nat, k: nat)
    requires k <= |input|
    requires Parse(Greeting, input, auth, room).phase.Dialing?
    ensures Parse(Greeting, input[..k], auth, room).phase.Dialing? <==> k >= Parse(Greeting, input, auth, room).used
  {
    hide Parse;
    Truncation(Greeting, input, auth, room, k);
  }

  // ---- Bounds and transcript ------------------------------------------------

  /** The most bytes that can still be read from a phase on. */
  function Budget(p: Phase): nat {
    match p
    case Greeting => 1032
    case Methods(n) => n + 775
    case AuthVersion => 775
    case UserLength => 774
    case User(n) => n + 518
    case PassLength(_) => 518
    case Pass(_, n) => n + 262
    case Head => 262
    case NameLength => 258
    case NameBody(n) => n + 2
    case IPv4Body => 6
    case IPv6Body => 18
    case Dialing(_) | Dead(_) => 0
  }

  lemma BudgetCoversRead(p: Phase)
    ensures p.Need() <= Budget(p)
  {
  }

  lemma BudgetSpent(p: Phase, got: Bytes, auth: Credentials, room: nat)
    requires !p.Final() && |got| == p.Need() && p.Sized()
    ensures p.Need() + Budget(Respond(p, got, auth, room).phase) <= Budget(p)
  {
  }

  lemma {:induction false} UsedWithinBudget(p: Phase, input: Bytes, auth: Credentials, room: nat)
    requires p.Sized()
    ensures Parse(p, input, auth, room).used <= Budget(p)
    decreases p.Rank()
  {
    hide Respond, Parse, Phase.Need, Phase.Sized, Budget;
    if p.Final() || |input| < p.Need() {
      ParseEnd(p, input, auth, room);
      BudgetCoversRead(p);
    } else {
      ParseRead(p, input, auth, room);
      BudgetSpent(p, input[..p.Need()], auth, room);
      var answer := Respond(p, input[..p.Need()], auth, room);
      UsedWithinBudget(answer.phase, input[p.Need()..], auth, room - |answer.sent|);
    }
  }

  /** No client makes the server read more than 1032 bytes before the dial or the failure. */
  lemma ReadBound(input: Bytes, auth: Credentials, room: nat)
    ensures Parse(Greeting, input, auth, room).used <= 1032
  {
    UsedWithinBudget(Greeting, input, auth, room);
  }

  /** Whether a negotiation that is in phase `p` can still end in `end`. */
  predicate Possible(p: Phase, end: Phase) {
    && end.Final() && end != Dead(Io)
    && (p.Rank() < 11 ==> end != Dead(NotSocks5))
    && (p.Rank() < 10 ==> end != Dead(RefusedUserPass))
    && (p.Rank() < 9 ==> end != Dead(BadAuthVersion))
    && (p.Rank() < 5 ==> end != Dead(BadCredentials))
  }

  /** What the server sends from phase `p` on in a negotiation that ends in `end`. */
  function Upcoming(p: Phase, end: Phase): Bytes {
    var selection :=
      if p.Rank() < 10 || end == Dead(NotSocks5) then []
      else if end == Dead(RefusedUserPass) then NO_ACCEPTABLE_METHOD
      else METHOD_USER_PASS;
    var verdict :=
      if p.Rank() < 5 || end == Dead(NotSocks5) || end == Dead(RefusedUserPass) || end == Dead(BadAuthVersion) then []
      else if end == Dead(BadCredentials) then AUTH_FAILED
      else AUTH_OK;
    selection + verdict
  }

  lemma UpcomingAfter(p: Phase, got: Bytes, auth: Credentials, end: Phase)
    requires !p.Final() && |got| == p.Need()
    requires var next := React(p, got, auth).next; if next.Final() then end == next else Possible(next, end)
    ensures Possible(p, end)
    ensures React(p, got, auth).next.Final() ==> Upcoming(p, end) == React(p, got, auth).reply
    ensures Upcoming(p, end) == React(p, got, auth).reply
                                + if React(p, got, auth).next.Final() then []
                                  else Upcoming(React(p, got, auth).next, end)
  {
    hide Utf8.Valid, FromBe16;
  }

  /** The transcript is fixed by how the negotiation ends, and cut short only by an I/O failure. */
  lemma {:induction false} Transcript(p: Phase, input: Bytes, auth: Credentials, room: nat) returns (end: Phase)
    requires !p.Final()
    ensures var o := Parse(p, input, auth, room);
            && Possible(p, end) && o.sent <= Upcoming(p, end)
            && (o.phase != Dead(Io) ==> o.phase == end && o.sent == Upcoming(p, end))
    decreases p.Rank()
  {
    hide React, Parse, Upcoming, Phase.Need;
    if |input| < p.Need() {
      ParseEnd(p, input, auth, room);
      end := Dead(UnsupportedRequest);
    } else {
      var got, rest := input[..p.Need()], input[p.Need()..];
      ParseRead(p, input, auth, room);
      var r := React(p, got, auth);
      var a := Respond(p, got, auth, room);
      if a.phase.Final() {
        ParseEnd(a.phase, rest, auth, room - |a.sent|);
        end := if r.next.Final() then r.next else Dead(UnsupportedRequest);
      } else {
        end := Transcript(r.next, rest, auth, room - |a.sent|);
      }
      UpcomingAfter(p, got, auth, end);
    }
  }

  /**
   * Before pumping, the client only ever sees a prefix of one of three
   * transcripts; which one, and that it is complete, follows from the outcome.
   */
  lemma OutputTranscript(input: Bytes, auth: Credentials, room: nat)
    ensures var o := Parse(Greeting, input, auth, room);
            && (o.sent <= PRELUDE || o.sent <= NO_ACCEPTABLE_METHOD || o.sent <= METHOD_USER_PASS + AUTH_FAILED)
            && (o.phase.Dialing? ==> o.sent == PRELUDE)
            && (o.phase == Dead(RefusedUserPass) ==> o.sent == NO_ACCEPTABLE_METHOD)
            && (o.phase == Dead(BadCredentials) ==> o.sent == METHOD_USER_PASS + AUTH_FAILED)
  {
    hide Parse;
    var end := Transcript(Greeting, input, auth, room);
  }
}
