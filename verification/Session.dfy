/** The session protocol in dhcp mode, as an automaton over what can be seen of a run: every send with
    its bytes, every receive, every look at the stop flag, every sleep, and the closing of the socket.
    Seeds and session keys are those of the datagrams received; nothing is taken from the client. */
module Session {
  import opened Words
  import opened Text
  import opened Settings
  import opened Layout
  import opened RetryPolicy
  import opened RetryAfter
  import opened Net
  import opened Beats

  type Four = s: seq<byte> | |s| == 4 witness [0, 0, 0, 0]
  type Key = s: seq<byte> | |s| == 16 witness [0, 0, 0, 0, 0, 0, 0, 0, 0, 0, 0, 0, 0, 0, 0, 0]

  datatype Params = Params(cfg: Config, server: Address, tryTimes: int, eternal: bool, signed: bool)
  {
    /** Every string of the configuration has room for the byte that ends it. */
    ghost predicate Ok() {
      cfg.Fits()
    }
  }

  /** A session: its login seed and key, the keepalive exchanges begun, the failures in a row and the
      rounds completed. */
  datatype Link = Link(seed: Four, key: Key, exchanges: nat, failing: nat, rounds: nat)

  /** What an exchange is for. */
  datatype Goal =
    | Ask
    | BeatSeed(link: Link)
    | Beat(link: Link)
    | Extra(link: Link)
    | First(link: Link)
    | Third(link: Link)
    | LogoutAsk(key: Key)
    | Logoff(key: Key, seed: Four)

  datatype Phase =
    | Booting
    | Booted
    | Top
    | AskDue
    | Waiting(goal: Goal, packet: seq<byte>, pattern: Pattern, failures: nat)
    | ResendDue(goal: Goal, packet: seq<byte>, pattern: Pattern, failures: nat)
    | Unanswered
    | Seeded(seed: Four)
    | LoginDue(seed: Four)
    | LoginWait(seed: Four)
    | NoticeWait(link: Link)
    | Refused(delay: nat)
    | Delaying(delay: nat)
    | Online(link: Link)
    | BeatDue(link: Link)
    | BeatReplyDue(link: Link, beatSeed: Four)
    | Resting(link: Link)
    | ExtraDue(link: Link)
    | FirstDue(link: Link)
    | ThirdDue(link: Link, tail: Four)
    | RoundDone(link: Link)
    | Lost(key: Key)
    | LogoutAskDue(key: Key)
    | LogoffDue(key: Key, seed: Four)
    | Exiting
    | Closed

  /** attempts counts the challenges begun, fails the refused logins since the last accepted one. */
  datatype Monitor = Monitor(phase: Phase, attempts: nat, fails: nat)

  /** The attempt loop goes on: an eternal run counts no further than one. */
  predicate More(P: Params, attempts: nat) {
    if P.eternal && attempts > 0 then 1 < P.tryTimes else attempts < P.tryTimes
  }

  // ---- Exchanges ------------------------------------------------------------------------------

  function Any(first: byte, minimum: nat): Pattern {
    Pattern(Some(first), None, None, None, None, None, minimum)
  }

  function AskPattern(packet: seq<byte>): Pattern
    requires |packet| == 20
  {
    Pattern(Some(0x02), None, Some(packet[1]), Some(packet[2]), Some(packet[3]), None, 8)
  }

  const LOGIN_PATTERN := Pattern(Some(0x04), Some(0x05), None, None, None, None, 1)

  function EchoPattern(counter: byte): Pattern {
    Pattern(Some(0x07), None, Some(counter), None, None, None, 3)
  }

  function FirstPattern(counter: byte): Pattern {
    Pattern(Some(0x07), None, Some(counter), Some(0x28), None, Some(0x02), 20)
  }

  function ThirdPattern(counter: byte): Pattern {
    Pattern(Some(0x07), None, Some(counter), Some(0x28), None, Some(0x04), 6)
  }

  /** A packet of type 1 has no tail. */
  const NO_TAIL: Four := [0, 0, 0, 0]

  /** The counter byte of the n-th exchange of a session. */
  function CounterByte(n: nat): byte {
    ToByte(n % 255)
  }

  function Begun(link: Link): Link {
    link.(exchanges := link.exchanges + 1)
  }

  datatype Opening = Opening(goal: Goal, pattern: Pattern, base: Monitor)

  /** The exchange that a phase opens by sending a packet, if it may send that packet at all. */
  ghost function Opens(P: Params, m: Monitor, packet: seq<byte>): Option<Opening>
    requires P.Ok()
  {
    match m.phase
    case AskDue =>
      if |packet| == 20 && packet == Challenge(0x02, packet[2], packet[3], P.cfg.authVersion[0]) then
        Some(Opening(Ask, AskPattern(packet), m.(attempts := m.attempts + 1)))
      else None
    case BeatDue(link) =>
      if P.cfg.keepalive1Mod then
        if packet == BEAT_ASK then Some(Opening(BeatSeed(link), Any(0x07, 12), m)) else None
      else if |packet| == 42 && packet == PlainBeat(P.cfg, link.seed, link.key, packet[36], packet[37]) then
        Some(Opening(Beat(link), Any(0x07, 1), m))
      else None
    case BeatReplyDue(link, beatSeed) =>
      if P.cfg.keepalive1Mod && |packet| == 38 && packet == BeatReply(beatSeed, link.key, packet[36], packet[37]) then
        Some(Opening(Beat(link), Any(0x07, 1), m))
      else None
    case ExtraDue(link) =>
      var counter := CounterByte(link.exchanges);
      if packet == Beat2(P.cfg, counter, ExtraOfRound(P.cfg.jluMode, link.rounds), false, NO_TAIL) then
        Some(Opening(Extra(Begun(link)), EchoPattern(counter), m))
      else None
    case FirstDue(link) =>
      var counter := CounterByte(link.exchanges);
      if packet == Beat2(P.cfg, counter, NoExtra, false, NO_TAIL) then
        Some(Opening(First(Begun(link)), FirstPattern(counter), m))
      else None
    case ThirdDue(link, tail) =>
      var counter := CounterByte(link.exchanges);
      if packet == Beat2(P.cfg, counter, NoExtra, true, tail) then
        Some(Opening(Third(Begun(link)), ThirdPattern(counter), m))
      else None
    case LogoutAskDue(key) =>
      if |packet| == 20 && packet == Challenge(0x03, packet[2], packet[3], P.cfg.authVersion[0]) then
        Some(Opening(LogoutAsk(key), AskPattern(packet), m))
      else None
    case LogoffDue(key, seed) =>
      if packet == Logout(P.cfg, seed, key) then Some(Opening(Logoff(key, seed), Any(0x04, 1), m)) else None
    case _ => None
  }

  /** Four bytes of a reply; the filters see to it that they are there. */
  function FourAt(reply: seq<byte>, place: nat): Four {
    if place + 4 <= |reply| then reply[place..place + 4] else [0, 0, 0, 0]
  }

  function KeyAt(reply: seq<byte>, place: nat): Key {
    if place + 16 <= |reply| then reply[place..place + 16] else seq(16, _ => 0)
  }

  /** A keepalive round failed: after six in a row the session is given up. */
  function Failing(link: Link): Phase {
    if link.failing + 1 >= RECONNECT_THRESHOLD then Lost(link.key)
    else Online(link.(failing := link.failing + 1))
  }

  /** Where an exchange leads, with a reply or without one. */
  function PhaseAfter(goal: Goal, reply: Option<seq<byte>>): Phase {
    match (goal, reply)
    case (Ask, Some(r)) => Seeded(FourAt(r, 4))
    case (Ask, None) => Unanswered
    case (BeatSeed(link), Some(r)) => BeatReplyDue(link, FourAt(r, 8))
    case (Beat(link), Some(r)) => Resting(link)
    case (Extra(link), Some(r)) =>
      if |r| > 2 && (r[2] == 0x10 || r[2] == 0x28) then FirstDue(link) else Failing(link)
    case (First(link), Some(r)) => ThirdDue(link, FourAt(r, 16))
    case (Third(link), Some(r)) => RoundDone(link)
    case (LogoutAsk(key), Some(r)) => LogoffDue(key, FourAt(r, 4))
    case (LogoutAsk(key), None) => Exiting
    case (Logoff(_, _), _) => Exiting
    case (g, None) => Failing(g.link)
  }

  function Settle(base: Monitor, goal: Goal, reply: Option<seq<byte>>): Monitor {
    base.(phase := PhaseAfter(goal, reply))
  }

  // ---- The login reply ------------------------------------------------------------------------

  /** The retry delay that a refusal sets. */
  ghost function ReplyDelay(reply: seq<byte>): (d: nat)
    ensures 1 <= d <= 1800
  {
    if |reply| <= 4 then SHORT_GENERIC_DELAY else DelayForReply(reply[4], |reply|, Cooldown(reply))
  }

  /** It is short for a short refusal, and for one of five bytes with the code of a wrong password; it is the
      cooldown, if there is one, with the code of an outdated client; and it is a minute in all other cases. */
  lemma ReplyDelayIs(r: seq<byte>)
    ensures forall c: nat :: IsCooldown(r, c) ==>
              ReplyDelay(r) == if |r| <= 4 || (|r| == 5 && r[4] == 0x03) then 3
                               else if r[4] == 0x15 && c > 0 then c
                               else 60
  {
    forall c: nat | IsCooldown(r, c)
      ensures c == Cooldown(r)
    {
      CooldownUnique(r, c, Cooldown(r));
    }
    hide IsCooldown;
  }

  function Refuse(m: Monitor, delay: nat): Monitor {
    m.(phase := Refused(delay), fails := m.fails + 1)
  }

  ghost function AfterLoginReply(m: Monitor, seed: Four, reply: seq<byte>): Monitor
    requires |reply| > 0
  {
    if reply[0] == 0x04 then
      if |reply| < 39 then Refuse(m, DEFAULT_DELAY)
      else m.(phase := NoticeWait(Link(seed, KeyAt(reply, 23), 0, 0, 0)), fails := 0)
    else Refuse(m, ReplyDelay(reply))
  }

  predicate Template(P: Params, m: Monitor) {
    JluTemplate(P.cfg.jluMode, m.fails)
  }

  /** The login that is due is not defined; the automaton allows no further action. */
  predicate Stuck(P: Params, m: Monitor) {
    m.phase.LoginDue? && LoginUndefined(P.cfg, Template(P, m))
  }

  /** How a run of dogcom ends: with its return value, or in a login that is not defined. */
  datatype Outcome = Exit(code: int) | Undefined

  // ---- The steps ------------------------------------------------------------------------------

  ghost function AfterSend(P: Params, m: Monitor, dest: Address, packet: seq<byte>, ok: bool): Option<Monitor>
    requires P.Ok()
  {
    if dest != P.server then None
    else
      match m.phase
      case ResendDue(goal, same, pattern, failures) =>
        if packet != same then None
        else if ok then Some(m.(phase := Waiting(goal, packet, pattern, failures)))
        else Some(Settle(m, goal, None))
      case LoginDue(seed) =>
        if LoginOf(P.cfg, seed, Template(P, m), P.signed) == Some(packet) then Some(m.(phase := LoginWait(seed)))
        else None
      case _ =>
        match Opens(P, m, packet)
        case Some(o) =>
          if ok then Some(o.base.(phase := Waiting(o.goal, packet, o.pattern, 0)))
          else Some(Settle(o.base, o.goal, None))
        case None => None
  }

  ghost function AfterReceive(P: Params, m: Monitor, got: Received): Option<Monitor> {
    match m.phase
    case Waiting(goal, packet, pattern, failures) =>
      if Accepted(got, P.server, pattern) then Some(Settle(m, goal, Some(got.bytes)))
      else if got.Datagram? then Some(m)
      else if failures < RETRY_COUNT then Some(m.(phase := ResendDue(goal, packet, pattern, failures + 1)))
      else Some(Settle(m, goal, None))
    case LoginWait(seed) =>
      if Accepted(got, P.server, LOGIN_PATTERN) then Some(AfterLoginReply(m, seed, got.bytes))
      else if got.Datagram? then Some(m)
      else Some(Refuse(m, DEFAULT_DELAY))
    case NoticeWait(link) => Some(m.(phase := Online(link)))
    case _ => None
  }

  ghost function AfterPoll(P: Params, m: Monitor, stop: bool): Option<Monitor>
    requires P.Ok()
  {
    match m.phase
    case Booting => Some(m.(phase := if stop then Exiting else Top))
    case Booted => Some(m.(phase := if stop then Exiting else Top))
    case Top => if More(P, m.attempts) then Some(m.(phase := if stop then Exiting else AskDue)) else None
    case Unanswered => Some(m.(phase := if stop then Exiting else Delaying(DEFAULT_DELAY)))
    case Refused(delay) => Some(m.(phase := if stop then Exiting else Delaying(delay)))
    case LoginDue(seed) =>
      // an address does not parse: the login is refused without a packet
      if AddressesParse(P.cfg) then None
      else Some(Refuse(m, DEFAULT_DELAY).(phase := if stop then Exiting else Delaying(DEFAULT_DELAY)))
    case Online(link) => Some(m.(phase := if stop then LogoutAskDue(link.key) else BeatDue(link)))
    case Lost(key) => Some(m.(phase := if stop then LogoutAskDue(key) else Delaying(DEFAULT_DELAY)))
    case _ => None
  }

  function AfterSleep(P: Params, m: Monitor, seconds: nat): Option<Monitor> {
    match m.phase
    case Booting => if 0 < seconds <= P.cfg.startupDelay then Some(m.(phase := Booted)) else None
    case Delaying(delay) => if seconds == delay then Some(m.(phase := Top)) else None
    case RoundDone(link) =>
      if seconds == 20 then Some(m.(phase := Online(link.(failing := 0, rounds := link.rounds + 1)))) else None
    case _ => None
  }

  function AfterPause(P: Params, m: Monitor): Option<Monitor> {
    match m.phase
    case Seeded(seed) => Some(m.(phase := LoginDue(seed)))
    case Resting(link) =>
      if ExtraOfRound(P.cfg.jluMode, link.rounds).NoExtra? then Some(m.(phase := FirstDue(link)))
      else Some(m.(phase := ExtraDue(link)))
    case _ => None
  }

  function AfterClose(P: Params, m: Monitor): Option<Monitor> {
    match m.phase
    case Exiting => Some(m.(phase := Closed))
    case Top => if More(P, m.attempts) then None else Some(m.(phase := Closed))
    case _ => None
  }

  ghost function Next(P: Params, m: Monitor, a: Action): Option<Monitor>
    requires P.Ok()
  {
    match a
    case Send(dest, packet, ok) => AfterSend(P, m, dest, packet, ok)
    case Receive(got) => AfterReceive(P, m, got)
    case Poll(stop) => AfterPoll(P, m, stop)
    case Sleep(seconds) => AfterSleep(P, m, seconds)
    case Pause => AfterPause(P, m)
    case Close => AfterClose(P, m)
  }

  const START := Monitor(Booting, 0, 0)

  /** Where the protocol stands after a trace; None if the trace is not one of the protocol. */
  ghost function Run(P: Params, trace: seq<Action>): Option<Monitor>
    requires P.Ok()
  {
    if trace == [] then Some(START)
    else
      match Run(P, trace[..|trace| - 1])
      case Some(m) => Next(P, m, trace[|trace| - 1])
      case None => None
  }

  // ---- What the automaton remembers of the last action ----------------------------------------

  /** A packet goes out again only because a receive just failed; a new exchange never follows that at once. */
  ghost predicate LastFits(tr: seq<Action>, phase: Phase) {
    && (phase.ResendDue? ==> tr != [] && tr[|tr| - 1] == Receive(Failed))
    && (Fresh(phase) ==> tr != [] && tr[|tr| - 1] != Receive(Failed))
  }

  /** The phases that open an exchange with random bytes or one of the second keepalive. */
  predicate Fresh(phase: Phase) {
    || phase.AskDue? || phase.LogoutAskDue? || phase.BeatDue? || phase.BeatReplyDue?
    || phase.ExtraDue? || phase.FirstDue? || phase.ThirdDue?
  }

  lemma LastStepFits(P: Params, front: seq<Action>, m: Monitor, a: Action, n: Monitor)
    requires P.Ok() && Next(P, m, a) == Some(n)
    ensures LastFits(front + [a], n.phase)
  {
    hide Opens, LoginOf, ReplyDelay, Matches;
  }

  lemma StartLast()
    ensures LastFits([], START.phase)
  {
  }

  lemma ReachableLast(P: Params, tr: seq<Action>)
    requires P.Ok() && Run(P, tr).Some?
    ensures LastFits(tr, Run(P, tr).value.phase)
  {
    hide Next, LastFits;
    if tr == [] {
      StartLast();
    } else {
      var front, a := tr[..|tr| - 1], tr[|tr| - 1];
      assert tr == front + [a];
      LastStepFits(P, front, Run(P, front).value, a, Run(P, tr).value);
    }
  }

  // ---- What parts of the protocol look like in a trace ----------------------------------------

  /** From a place on a trace is one challenge, and the seed is that of its answer. */
  ghost predicate Challenged(P: Params, tr: seq<Action>, from: nat, code: byte, seed: Option<Four>)
    requires P.Ok()
  {
    exists r1: byte, r2: byte, reply: Option<seq<byte>> :: ChallengedBy(P, tr, from, code, r1, r2, reply, seed)
  }

  ghost predicate ChallengedBy(P: Params, tr: seq<Action>, from: nat, code: byte, r1: byte, r2: byte,
    reply: Option<seq<byte>>, seed: Option<Four>)
    requires P.Ok()
  {
    var packet := Challenge(code, r1, r2, P.cfg.authVersion[0]);
    && Conducted(tr, from, P.server, packet, AskPattern(packet), reply)
    && (reply.Some? <==> seed.Some?) && (reply.Some? ==> |reply.value| >= 8 && seed.value == reply.value[4..8])
  }

  /** From a place on a trace is the sending of one login packet, and what was received then. */
  ghost predicate LoginTried(P: Params, tr: seq<Action>, from: nat, packet: seq<byte>) {
    && from < |tr| && Carries(tr[from], P.server, packet) && forall x :: from < x < |tr| ==> tr[x].Receive?
  }

  /** From a place on a trace is one exchange of the logout packet. */
  ghost predicate LoggedOff(P: Params, tr: seq<Action>, from: nat, seed: Four, key: Key)
    requires P.Ok()
  {
    exists reply: Option<seq<byte>> ::
      Conducted(tr, from, P.server, Logout(P.cfg, seed, key), Any(0x04, 1), reply)
  }

  /** From a place on a trace is a challenge for a logout, and the logout exactly if that was answered. */
  ghost predicate LeftSession(P: Params, tr: seq<Action>, from: nat, key: Key)
    requires P.Ok()
  {
    exists mid: nat, seed: Option<Four> :: LeftBy(P, tr, from, key, mid, seed)
  }

  ghost predicate LeftBy(P: Params, tr: seq<Action>, from: nat, key: Key, mid: nat, seed: Option<Four>)
    requires P.Ok()
  {
    && mid <= |tr| && Challenged(P, tr[..mid], from, 0x03, seed)
    && (if seed.Some? then LoggedOff(P, tr, mid, seed.value, key) else mid == |tr|)
  }

  /** From a place on a trace is the first keepalive of a session: the plain one, or a keepalive seed and the
      answer to exactly that seed. */
  ghost predicate FirstBeaten(P: Params, tr: seq<Action>, from: nat, seed: Four, key: Key, ok: bool)
    requires P.Ok()
  {
    if P.cfg.keepalive1Mod then
      exists mid: nat, first: Option<seq<byte>> :: SeedBeaten(P, tr, from, key, ok, mid, first)
    else exists r1: byte, r2: byte, reply: Option<seq<byte>> :: PlainBeaten(P, tr, from, seed, key, ok, r1, r2, reply)
  }

  ghost predicate PlainBeaten(P: Params, tr: seq<Action>, from: nat, seed: Four, key: Key, ok: bool, r1: byte, r2: byte,
    reply: Option<seq<byte>>)
  {
    Conducted(tr, from, P.server, PlainBeat(P.cfg, seed, key, r1, r2), Any(0x07, 1), reply) && ok == reply.Some?
  }

  ghost predicate SeedBeaten(P: Params, tr: seq<Action>, from: nat, key: Key, ok: bool, mid: nat,
    first: Option<seq<byte>>)
  {
    && mid <= |tr| && Conducted(tr[..mid], from, P.server, BEAT_ASK, Any(0x07, 12), first)
    && (if first.None? then mid == |tr| && !ok
        else |first.value| >= 12
             && exists r1: byte, r2: byte, reply: Option<seq<byte>> ::
                  SeedAnswered(P, tr, mid, first.value[8..12], key, ok, r1, r2, reply))
  }

  ghost predicate SeedAnswered(P: Params, tr: seq<Action>, from: nat, beatSeed: Four, key: Key, ok: bool, r1: byte,
    r2: byte, reply: Option<seq<byte>>)
  {
    Conducted(tr, from, P.server, BeatReply(beatSeed, key, r1, r2), Any(0x07, 1), reply) && ok == reply.Some?
  }

  /** From a place on a trace is the second keepalive of a round, with its extra packet if the round has one: the
      regular packets only follow an answer of these two kinds to the extra one. */
  ghost predicate SecondBeaten(P: Params, tr: seq<Action>, from: nat, kind: ExtraKind, counter: nat, next: nat,
    ok: bool)
    requires P.Ok()
  {
    if kind.NoExtra? then RegularBeaten(P, tr, from, counter, next, ok)
    else exists mid: nat, reply: Option<seq<byte>> :: ExtraBeaten(P, tr, from, kind, counter, next, ok, mid, reply)
  }

  ghost predicate ExtraBeaten(P: Params, tr: seq<Action>, from: nat, kind: ExtraKind, counter: nat, next: nat, ok: bool,
    mid: nat, reply: Option<seq<byte>>)
    requires P.Ok()
  {
    var number := CounterByte(counter);
    && mid <= |tr|
    && Conducted(tr[..mid], from, P.server, Beat2(P.cfg, number, kind, false, NO_TAIL), EchoPattern(number), reply)
    && (if reply.Some? && |reply.value| > 2 && (reply.value[2] == 0x10 || reply.value[2] == 0x28) then
          RegularBeaten(P, tr, mid, counter + 1, next, ok)
        else mid == |tr| && next == counter + 1 && !ok)
  }

  /** The packet of type 1, and the one of type 3 exactly if that was answered, with the tail of the answer. */
  ghost predicate RegularBeaten(P: Params, tr: seq<Action>, from: nat, counter: nat, next: nat, ok: bool)
    requires P.Ok()
  {
    exists mid: nat, first: Option<seq<byte>> :: FirstThenThird(P, tr, from, counter, next, ok, mid, first)
  }

  ghost predicate FirstThenThird(P: Params, tr: seq<Action>, from: nat, counter: nat, next: nat, ok: bool, mid: nat,
    first: Option<seq<byte>>)
    requires P.Ok()
  {
    var number, after := CounterByte(counter), CounterByte(counter + 1);
    && mid <= |tr|
    && Conducted(tr[..mid], from, P.server, Beat2(P.cfg, number, NoExtra, false, NO_TAIL), FirstPattern(number), first)
    && (if first.None? then mid == |tr| && next == counter + 1 && !ok
        else |first.value| >= 20 && next == counter + 2
             && exists reply: Option<seq<byte>> :: ThirdBeaten(P, tr, mid, after, first.value[16..20], ok, reply))
  }

  ghost predicate ThirdBeaten(P: Params, tr: seq<Action>, from: nat, number: byte, tail: Four, ok: bool,
    reply: Option<seq<byte>>)
    requires P.Ok()
  {
    && Conducted(tr, from, P.server, Beat2(P.cfg, number, NoExtra, true, tail), ThirdPattern(number), reply)
    && ok == reply.Some?
  }
}
