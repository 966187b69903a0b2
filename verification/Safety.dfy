/** What holds of every trace of the session automaton, and so of every run of the client. The theorems are
    about packets and datagrams; the states of the automaton are in their proofs. */
module Safety {
  import opened Words
  import opened Text
  import opened Settings
  import opened Layout
  import opened RetryPolicy
  import opened Net
  import opened Beats
  import opened Session
  import ReadBack
  import Ipv4

  // ---- Prefixes -------------------------------------------------------------------------------

  ghost predicate Accepts(P: Params, tr: seq<Action>)
    requires P.Ok()
  {
    Run(P, tr).Some?
  }

  /** One allowed step. */
  ghost predicate Steps(P: Params, before: Option<Monitor>, a: Action, after: Option<Monitor>)
    requires P.Ok()
  {
    before.Some? && after.Some? && Next(P, before.value, a) == after
  }

  lemma {:induction false} PrefixRuns(P: Params, tr: seq<Action>, i: nat)
    requires P.Ok() && Accepts(P, tr) && i <= |tr|
    ensures Accepts(P, tr[..i])
    ensures i < |tr| ==> Steps(P, Run(P, tr[..i]), tr[i], Run(P, tr[..i + 1]))
    decreases |tr|
  {
    hide Next;
    var n := |tr| - 1;
    if i == |tr| {
      assert tr[..i] == tr;
    } else if i == n {
      assert tr[..i + 1] == tr;
    } else {
      PrefixRuns(P, tr[..n], i);
      assert tr[..n][..i] == tr[..i] && tr[..n][..i + 1] == tr[..i + 1];
    }
  }

  // ---- Shapes of packets ----------------------------------------------------------------------

  /** A challenge; code 2 asks for a login seed, code 3 for a logout seed. */
  predicate Asks(packet: seq<byte>, code: byte) {
    |packet| == 20 && packet[0] == 0x01 && packet[1] == code
  }

  /** A request for a login seed. */
  predicate IsAsk(packet: seq<byte>) {
    Asks(packet, 0x02)
  }

  predicate IsLogin(packet: seq<byte>) {
    |packet| > 0 && packet[0] == 0x03
  }

  predicate IsLogoutAsk(packet: seq<byte>) {
    Asks(packet, 0x03)
  }

  predicate IsLogout(packet: seq<byte>) {
    |packet| > 0 && packet[0] == 0x06
  }

  /** A keepalive of either kind. */
  predicate IsBeat(packet: seq<byte>) {
    |packet| > 0 && (packet[0] == 0xff || packet[0] == 0x07)
  }

  lemma LoginShape(cfg: Config, seed: seq<byte>, jlu: bool, signed: bool)
    requires cfg.Fits() && LoginOf(cfg, seed, jlu, signed).Some?
    ensures IsLogin(LoginOf(cfg, seed, jlu, signed).value)
  {
    hide Login;
    var ip, dns := Ipv4.Parse(cfg.hostIp).value, Ipv4.Parse(cfg.primaryDns).value;
    var dhcp := Ipv4.Parse(cfg.dhcpServer).value;
    var p := Login(cfg, seed, ip, dns, dhcp, jlu, signed);
    ReadBack.LoginReadsAccount(cfg, seed, ip, dns, dhcp, jlu, signed);
    assert p[0] == p[..3][0];
  }

  lemma LogoutShape(cfg: Config, seed: seq<byte>, auth: seq<byte>)
    requires cfg.Fits() && |auth| == 16
    ensures IsLogout(Logout(cfg, seed, auth))
  {
    hide Md5A, Encoding.XorBytes;
  }

  lemma ChallengeShape(code: byte, r1: byte, r2: byte, version: byte)
    ensures var p := Challenge(code, r1, r2, version);
            p[0] == 0x01 && p[1] == code && p[2] == r1 && p[3] == r2
  {
  }

  lemma BeatShapes(cfg: Config, seed: seq<byte>, key: seq<byte>, beatSeed: seq<byte>, r1: byte, r2: byte)
    requires |key| == 16 && |beatSeed| == 4
    ensures PlainBeat(cfg, seed, key, r1, r2)[0] == 0xff && BeatReply(beatSeed, key, r1, r2)[0] == 0xff
  {
    hide Md5A, Crc;
  }

  /** What an exchange is opened with. */
  lemma OpensShape(P: Params, m: Monitor, packet: seq<byte>)
    requires P.Ok() && Opens(P, m, packet).Some?
    ensures var o := Opens(P, m, packet).value;
            && (if o.goal.Ask? then m.phase.AskDue? && IsAsk(packet) && o.pattern == AskPattern(packet)
                                    && o.base == m.(attempts := m.attempts + 1)
                else o.base == m)
            && (o.goal.LogoutAsk? ==> IsLogoutAsk(packet) && o.pattern == AskPattern(packet))
            && (o.goal.Logoff? ==> IsLogout(packet))
            && (!o.goal.Ask? && !o.goal.LogoutAsk? && !o.goal.Logoff? ==> IsBeat(packet))
  {
    hide PlainBeat, BeatReply, Beat2, Challenge, Logout;
    match m.phase
    case AskDue => ChallengeShape(0x02, packet[2], packet[3], P.cfg.authVersion[0]);
    case LogoutAskDue(key) => ChallengeShape(0x03, packet[2], packet[3], P.cfg.authVersion[0]);
    case LogoffDue(key, seed) => LogoutShape(P.cfg, seed, key);
    case BeatDue(link) =>
      if !P.cfg.keepalive1Mod {
        BeatShapes(P.cfg, link.seed, link.key, [0, 0, 0, 0], packet[36], packet[37]);
      }
    case BeatReplyDue(link, beatSeed) => BeatShapes(P.cfg, link.seed, link.key, beatSeed, packet[36], packet[37]);
    case _ =>
  }

  // ---- Closing --------------------------------------------------------------------------------

  /** The socket is closed at most once, nothing happens afterwards, and a run that ends has closed it. */
  lemma ClosedOnce(P: Params, tr: seq<Action>)
    requires P.Ok() && Accepts(P, tr)
    ensures forall i :: 0 <= i < |tr| && tr[i] == Close ==> i == |tr| - 1
    ensures Run(P, tr).value.phase == Closed <==> tr != [] && tr[|tr| - 1] == Close
  {
    forall i | 0 <= i < |tr| && tr[i] == Close
      ensures i == |tr| - 1
    {
      PrefixRuns(P, tr, i);
      if i + 1 < |tr| {
        PrefixRuns(P, tr, i + 1);
        NothingAfterClose(P, Run(P, tr[..i + 1]).value, tr[i + 1]);
        assert false;
      }
    }
    if tr != [] {
      OnlyCloseCloses(P, Run(P, tr[..|tr| - 1]).value, tr[|tr| - 1]);
    }
  }

  lemma NothingAfterClose(P: Params, m: Monitor, a: Action)
    requires P.Ok() && m.phase == Closed
    ensures Next(P, m, a) == None
  {
  }

  lemma OnlyCloseCloses(P: Params, m: Monitor, a: Action)
    requires P.Ok() && Next(P, m, a).Some?
    ensures Next(P, m, a).value.phase == Closed <==> a == Close
  {
    hide Opens, LoginOf, ReplyDelay;
  }

  // ---- Logins since the last accepted one -----------------------------------------------------

  /** The last packet sent is a login. */
  predicate AwaitsLogin(tr: seq<Action>) {
    tr != [] && (var a := tr[|tr| - 1];
                 if a.Send? then IsLogin(a.packet) else AwaitsLogin(tr[..|tr| - 1]))
  }

  /** A reply with which the server accepts a login. */
  predicate Grants(P: Params, a: Action) {
    a.Receive? && Accepted(a.got, P.server, LOGIN_PATTERN) && a.got.bytes[0] == 0x04 && |a.got.bytes| >= 39
  }

  /** The count after one more action. */
  function LoginsThen(P: Params, awaits: bool, count: nat, a: Action): nat {
    if a.Send? && IsLogin(a.packet) then count + 1 else if awaits && Grants(P, a) then 0 else count
  }

  /** The logins sent since the server last accepted one. */
  function LoginsSince(P: Params, tr: seq<Action>): nat {
    if tr == [] then 0
    else
      var front := tr[..|tr| - 1];
      LoginsThen(P, AwaitsLogin(front), LoginsSince(P, front), tr[|tr| - 1])
  }

  lemma LoginsSnoc(P: Params, front: seq<Action>, a: Action)
    ensures LoginsSince(P, front + [a]) == LoginsThen(P, AwaitsLogin(front), LoginsSince(P, front), a)
    ensures AwaitsLogin(front + [a]) == if a.Send? then IsLogin(a.packet) else AwaitsLogin(front)
  {
    hide LoginsThen, IsLogin;
    assert (front + [a])[..|front|] == front;
  }

  /** The failures that the client counts are these logins; with a login under way they are one behind. */
  ghost predicate LoginsCounted(P: Params, awaits: bool, count: nat, m: Monitor) {
    && (m.phase.Waiting? || m.phase.ResendDue? ==> !awaits)
    && (m.phase.LoginWait? ==> awaits && count == m.fails + 1)
    && (m.phase.NoticeWait? ==> m.fails == 0)
    && (!m.phase.LoginWait? && AddressesParse(P.cfg) ==> count == m.fails)
  }

  lemma LoginsStep(P: Params, awaits: bool, count: nat, m: Monitor, a: Action, n: Monitor)
    requires P.Ok() && PhaseFits(P, m.phase) && LoginsCounted(P, awaits, count, m) && Next(P, m, a) == Some(n)
    ensures LoginsCounted(P, if a.Send? then IsLogin(a.packet) else awaits, LoginsThen(P, awaits, count, a), n)
  {
    hide Next, PhaseFits, LoginsCounted, IsLogin, LoginsThen;
    if a.Send? {
      LoginsSend(P, awaits, count, m, a, n);
    } else {
      LoginsQuiet(P, awaits, count, m, a, n);
    }
  }

  lemma LoginsQuiet(P: Params, awaits: bool, count: nat, m: Monitor, a: Action, n: Monitor)
    requires P.Ok() && LoginsCounted(P, awaits, count, m) && Next(P, m, a) == Some(n) && !a.Send?
    ensures LoginsCounted(P, awaits, LoginsThen(P, awaits, count, a), n)
  {
    hide LoginOf, ReplyDelay, AddressesParse, FourAt, KeyAt;
  }

  lemma LoginsSend(P: Params, awaits: bool, count: nat, m: Monitor, a: Action, n: Monitor)
    requires P.Ok() && PhaseFits(P, m.phase) && LoginsCounted(P, awaits, count, m)
    requires Next(P, m, a) == Some(n) && a.Send?
    ensures LoginsCounted(P, IsLogin(a.packet), LoginsThen(P, awaits, count, a), n)
  {
    if m.phase.LoginDue? {
      LoginsDue(P, awaits, count, m, a, n);
    } else {
      OtherIsNoLogin(P, m, a, n);
      hide LoginOf, AddressesParse, Opens, PhaseFits, IsLogin, Template, PhaseAfter;
    }
  }

  lemma LoginsDue(P: Params, awaits: bool, count: nat, m: Monitor, a: Action, n: Monitor)
    requires P.Ok() && LoginsCounted(P, awaits, count, m) && Next(P, m, a) == Some(n) && a.Send? && m.phase.LoginDue?
    ensures LoginsCounted(P, IsLogin(a.packet), LoginsThen(P, awaits, count, a), n)
  {
    hide LoginOf, AddressesParse, IsLogin, Opens, Template;
    LoginShape(P.cfg, m.phase.seed, Template(P, m), P.signed);
    LoginNeeds(P.cfg, m.phase.seed, Template(P, m), P.signed);
  }

  /** Any other send leaves the count of failures, and does not end a wait for a login. */
  lemma OtherIsNoLogin(P: Params, m: Monitor, a: Action, n: Monitor)
    requires P.Ok() && PhaseFits(P, m.phase) && Next(P, m, a) == Some(n) && a.Send? && !m.phase.LoginDue?
    ensures !IsLogin(a.packet) && n.fails == m.fails
    ensures !m.phase.LoginWait? && !n.phase.LoginWait? && !n.phase.NoticeWait?
  {
    hide LoginOf, AddressesParse, Opens, PhaseFits, IsLogin, Template;
    if m.phase.ResendDue? {
      SameIsNoLogin(P, m);
    } else {
      OpensFails(P, m, a.packet);
      OpensNotLogin(P, m, a.packet);
    }
  }

  lemma SameIsNoLogin(P: Params, m: Monitor)
    requires P.Ok() && PhaseFits(P, m.phase) && m.phase.ResendDue?
    ensures !IsLogin(m.phase.packet)
  {
    hide PlainBeat, BeatReply, Logout, CounterByte, AskPattern, IsSecondFor, IsChallenge;
  }

  lemma OpensFails(P: Params, m: Monitor, packet: seq<byte>)
    requires P.Ok() && Opens(P, m, packet).Some?
    ensures Opens(P, m, packet).value.base.fails == m.fails
    ensures !m.phase.Waiting? && !m.phase.LoginWait?
  {
    hide PlainBeat, BeatReply, Beat2, Challenge, Logout;
  }

  lemma LoginNeeds(cfg: Config, seed: seq<byte>, jlu: bool, signed: bool)
    requires cfg.Fits() && LoginOf(cfg, seed, jlu, signed).Some?
    ensures AddressesParse(cfg) && !Overlong(cfg, jlu)
  {
    hide Login;
  }

  lemma OpensNotLogin(P: Params, m: Monitor, packet: seq<byte>)
    requires P.Ok() && Opens(P, m, packet).Some?
    ensures !IsLogin(packet)
  {
    hide Opens;
    OpensShape(P, m, packet);
  }

  lemma {:induction false} ReachableLogins(P: Params, tr: seq<Action>)
    requires P.Ok() && Accepts(P, tr)
    ensures LoginsCounted(P, AwaitsLogin(tr), LoginsSince(P, tr), Run(P, tr).value)
  {
    if tr == [] {
    } else {
      hide Next, LoginsCounted, PhaseFits, IsLogin, LoginsThen, LoginsSince, AwaitsLogin, Run;
      var front, a := tr[..|tr| - 1], tr[|tr| - 1];
      LastStep(P, tr);
      ReachableFits(P, front);
      ReachableLogins(P, front);
      assert tr == front + [a];
      LoginsSnoc(P, front, a);
      LoginsStep(P, AwaitsLogin(front), LoginsSince(P, front), Run(P, front).value, a, Run(P, tr).value);
    }
  }

  // ---- Where seeds and keys come from ---------------------------------------------------------

  /** No packet is sent from a place up to another. */
  ghost predicate NoSend(tr: seq<Action>, from: nat, end: nat) {
    forall x :: from <= x < end && x < |tr| ==> !tr[x].Send?
  }

  /** No seed is asked for and no login is sent from a place on. */
  ghost predicate NoLogin(tr: seq<Action>, from: nat) {
    forall x :: from <= x < |tr| && tr[x].Send? ==> !IsAsk(tr[x].packet) && !IsLogin(tr[x].packet)
  }

  /** At k a challenge goes out and is the last packet before j, where the server's answer to it, echoing
      its two random bytes, gives the seed. */
  ghost predicate Answered(P: Params, tr: seq<Action>, code: byte, k: nat, j: nat, seed: seq<byte>) {
    && k < j < |tr|
    && tr[k].Send? && tr[k].dest == P.server && Asks(tr[k].packet, code) && NoSend(tr, k + 1, j)
    && tr[j].Receive? && tr[j].got.Datagram? && tr[j].got.source == P.server
    && (var b := tr[j].got.bytes;
        && |b| >= 8 && b[0] == 0x02 && b[1] == code && b[2] == tr[k].packet[2] && b[3] == tr[k].packet[3]
        && seed == b[4..8])
  }

  /** The template of a login at l. */
  predicate TemplateAt(P: Params, tr: seq<Action>, l: nat)
    requires l <= |tr|
  {
    JluTemplate(P.cfg.jluMode, LoginsSince(P, tr[..l]))
  }

  lemma TemplateStays(P: Params, front: seq<Action>, tr: seq<Action>, l: nat)
    requires l <= |front| && front <= tr
    ensures TemplateAt(P, tr, l) == TemplateAt(P, front, l)
  {
    assert tr[..l] == front[..l];
  }

  /** At l, with nothing sent since the answer, the login packet of that seed goes out, in the template that
      belongs to the number of logins since the last accepted one. */
  ghost predicate LoginSent(P: Params, tr: seq<Action>, k: nat, j: nat, l: nat, seed: seq<byte>)
    requires P.Ok()
  {
    && Answered(P, tr, 0x02, k, j, seed) && j < l < |tr| && NoSend(tr, j + 1, l)
    && tr[l].Send? && tr[l].dest == P.server
    && LoginOf(P.cfg, seed, TemplateAt(P, tr, l), P.signed) == Some(tr[l].packet)
  }

  /** At r, with nothing sent since the login, the server accepts it and gives the session key. */
  ghost predicate LoggedIn(P: Params, tr: seq<Action>, k: nat, j: nat, l: nat, r: nat, seed: seq<byte>, key: seq<byte>)
    requires P.Ok()
  {
    && LoginSent(P, tr, k, j, l, seed) && l < r < |tr| && NoSend(tr, l + 1, r)
    && tr[r].Receive? && tr[r].got.Datagram? && tr[r].got.source == P.server
    && (var b := tr[r].got.bytes; |b| >= 39 && b[0] == 0x04 && key == b[23..39])
  }

  function LinkOf(phase: Phase): Option<Link> {
    match phase
    case NoticeWait(link) => Some(link)
    case Online(link) => Some(link)
    case BeatDue(link) => Some(link)
    case BeatReplyDue(link, _) => Some(link)
    case Resting(link) => Some(link)
    case ExtraDue(link) => Some(link)
    case FirstDue(link) => Some(link)
    case ThirdDue(link, _) => Some(link)
    case RoundDone(link) => Some(link)
    case Waiting(goal, _, _, _) => LinkOfGoal(goal)
    case ResendDue(goal, _, _, _) => LinkOfGoal(goal)
    case _ => None
  }

  function LinkOfGoal(goal: Goal): Option<Link> {
    match goal
    case Ask => None
    case LogoutAsk(_) => None
    case Logoff(_, _) => None
    case _ => Some(goal.link)
  }

  /** The session key that a phase holds. */
  function KeyOf(phase: Phase): Option<Key> {
    match LinkOf(phase)
    case Some(link) => Some(link.key)
    case None =>
      match phase
      case Lost(key) => Some(key)
      case LogoutAskDue(key) => Some(key)
      case LogoffDue(key, _) => Some(key)
      case Waiting(LogoutAsk(key), _, _, _) => Some(key)
      case ResendDue(LogoutAsk(key), _, _, _) => Some(key)
      case Waiting(Logoff(key, _), _, _, _) => Some(key)
      case ResendDue(Logoff(key, _), _, _, _) => Some(key)
      case _ => None
  }

  function SeedOf(phase: Phase): Option<Four> {
    match LinkOf(phase)
    case Some(link) => Some(link.seed)
    case None => None
  }

  /** What the automaton knows, in terms of the trace. */
  ghost predicate Known(P: Params, tr: seq<Action>, phase: Phase)
    requires P.Ok()
  {
    match phase
    case Waiting(Ask, packet, pattern, _) =>
      && IsAsk(packet) && pattern == AskPattern(packet)
      && exists k: nat :: k < |tr| && AskSent(P, tr, k, packet)
    case ResendDue(Ask, packet, pattern, _) => IsAsk(packet) && pattern == AskPattern(packet)
    case Seeded(seed) => exists k: nat, j: nat :: Answered(P, tr, 0x02, k, j, seed) && NoSend(tr, j + 1, |tr|)
    case LoginDue(seed) => exists k: nat, j: nat :: Answered(P, tr, 0x02, k, j, seed) && NoSend(tr, j + 1, |tr|)
    case LoginWait(seed) =>
      exists k: nat, j: nat, l: nat :: LoginSent(P, tr, k, j, l, seed) && NoSend(tr, l + 1, |tr|)
    case _ => OtherPacket(phase) && (KeyOf(phase).Some? ==> Holds(P, tr, KeyOf(phase).value, SeedOf(phase)))
  }

  /** An exchange that is not a challenge sends neither a challenge nor a login. */
  predicate OtherPacket(phase: Phase) {
    && (phase.Waiting? ==> !IsAsk(phase.packet) && !IsLogin(phase.packet))
    && (phase.ResendDue? ==> !IsAsk(phase.packet) && !IsLogin(phase.packet))
  }

  ghost predicate AskSent(P: Params, tr: seq<Action>, k: nat, packet: seq<byte>)
    requires k < |tr|
  {
    tr[k] == Send(P.server, packet, true) && NoSend(tr, k + 1, |tr|)
  }

  /** The key, and the seed if there is one, are those of the last login, and no later one was begun. */
  ghost predicate Holds(P: Params, tr: seq<Action>, key: Key, seed: Option<Four>)
    requires P.Ok()
  {
    exists k: nat, j: nat, l: nat, r: nat, s: Four ::
      LoggedIn(P, tr, k, j, l, r, s, key) && NoLogin(tr, r + 1) && (seed.Some? ==> seed.value == s)
  }

  /** How a key gets into a phase: from the phase before, or with the login reply. */
  lemma KeyStep(P: Params, m: Monitor, a: Action, n: Monitor)
    requires P.Ok() && Next(P, m, a) == Some(n) && KeyOf(n.phase).Some?
    ensures if m.phase.LoginWait? then
              && a.Receive? && Accepted(a.got, P.server, LOGIN_PATTERN)
              && (var b := a.got.bytes; |b| >= 39 && b[0] == 0x04 && KeyOf(n.phase).value == b[23..39])
              && SeedOf(n.phase) == Some(m.phase.seed)
            else
              && KeyOf(m.phase) == KeyOf(n.phase) && (SeedOf(n.phase).Some? ==> SeedOf(n.phase) == SeedOf(m.phase))
              && !(m.phase.Waiting? && m.phase.goal.Ask?) && !(m.phase.ResendDue? && m.phase.goal.Ask?)
  {
    hide Opens, LoginOf, ReplyDelay, Matches;
    if a.Send? && !m.phase.ResendDue? && !m.phase.LoginDue? {
      OpensLink(P, m, a.packet);
    }
  }

  /** Opening an exchange keeps key and seed. */
  lemma OpensLink(P: Params, m: Monitor, packet: seq<byte>)
    requires P.Ok() && Opens(P, m, packet).Some?
    ensures var o := Opens(P, m, packet).value;
            && o.base.fails == m.fails
            && (LinkOfGoal(o.goal).Some? ==>
                  LinkOf(m.phase).Some? && LinkOfGoal(o.goal).value.key == LinkOf(m.phase).value.key
                  && LinkOfGoal(o.goal).value.seed == LinkOf(m.phase).value.seed)
            && (o.goal.LogoutAsk? ==> m.phase == LogoutAskDue(o.goal.key))
            && (o.goal.Logoff? ==> m.phase == LogoffDue(o.goal.key, o.goal.seed))
  {
    hide PlainBeat, BeatReply, Beat2, Challenge, Logout;
  }

  lemma {:induction false} Knows(P: Params, tr: seq<Action>)
    requires P.Ok() && Accepts(P, tr)
    ensures Known(P, tr, Run(P, tr).value.phase)
  {
    hide Known, Next, LoginsCounted, LoginsSince, AwaitsLogin;
    if tr == [] {
      StartKnown(P);
    } else {
      var front, a := tr[..|tr| - 1], tr[|tr| - 1];
      LastStep(P, tr);
      Knows(P, front);
      ReachableLogins(P, front);
      assert tr == front + [a];
      KnownStep(P, front, Run(P, front).value, a, Run(P, tr).value);
    }
  }

  lemma LastStep(P: Params, tr: seq<Action>)
    requires P.Ok() && Accepts(P, tr) && tr != []
    ensures Accepts(P, tr[..|tr| - 1])
    ensures Steps(P, Run(P, tr[..|tr| - 1]), tr[|tr| - 1], Run(P, tr))
  {
    hide Next;
  }

  lemma StartKnown(P: Params)
    requires P.Ok()
    ensures Known(P, [], START.phase)
  {
  }

  lemma KnownStep(P: Params, front: seq<Action>, m: Monitor, a: Action, n: Monitor)
    requires P.Ok() && Known(P, front, m.phase) && Next(P, m, a) == Some(n)
    requires LoginsCounted(P, AwaitsLogin(front), LoginsSince(P, front), m)
    ensures Known(P, front + [a], n.phase)
  {
    hide LoginsCounted, LoginsSince, AwaitsLogin, TemplateAt;
    match n.phase
    case Waiting(Ask, packet, pattern, failures) => StepToAsking(P, front, m, a, n);
    case ResendDue(Ask, packet, pattern, failures) => StepToResend(P, front, m, a, n);
    case Seeded(seed) => StepToSeeded(P, front, m, a, n);
    case LoginDue(seed) => StepToLoginDue(P, front, m, a, n);
    case LoginWait(seed) => StepToLoginWait(P, front, m, a, n);
    case _ => StepToOther(P, front, m, a, n);
  }

  lemma StepToAsking(P: Params, front: seq<Action>, m: Monitor, a: Action, n: Monitor)
    requires P.Ok() && Known(P, front, m.phase) && Next(P, m, a) == Some(n)
    requires n.phase.Waiting? && n.phase.goal.Ask?
    ensures Known(P, front + [a], n.phase)
  {
    hide Opens, LoginOf, ReplyDelay, Matches, AskPattern, Answered, LoginSent, LoggedIn, Holds, NoLogin;
    var tr := front + [a];
    if a.Send? {
      if !m.phase.ResendDue? && !m.phase.LoginDue? {
        OpensShape(P, m, a.packet);
      }
      assert AskSent(P, tr, |front|, n.phase.packet);
    } else {
      var k: nat :| k < |front| && AskSent(P, front, k, n.phase.packet);
      assert AskSent(P, tr, k, n.phase.packet);
    }
  }

  lemma StepToResend(P: Params, front: seq<Action>, m: Monitor, a: Action, n: Monitor)
    requires P.Ok() && Known(P, front, m.phase) && Next(P, m, a) == Some(n)
    requires n.phase.ResendDue? && n.phase.goal.Ask?
    ensures Known(P, front + [a], n.phase)
  {
    hide Opens, LoginOf, ReplyDelay, Matches, AskPattern;
  }

  lemma StepToSeeded(P: Params, front: seq<Action>, m: Monitor, a: Action, n: Monitor)
    requires P.Ok() && Known(P, front, m.phase) && Next(P, m, a) == Some(n) && n.phase.Seeded?
    ensures Known(P, front + [a], n.phase)
  {
    hide Opens, LoginOf, ReplyDelay, LoginSent, LoggedIn, Holds, NoLogin;
    var tr := front + [a];
    if a.Send? && !m.phase.ResendDue? && !m.phase.LoginDue? {
      OpensShape(P, m, a.packet);
    }
    var packet := m.phase.packet;
    var k: nat :| k < |front| && AskSent(P, front, k, packet);
    assert Answered(P, tr, 0x02, k, |front|, n.phase.seed);
  }

  lemma StepToLoginDue(P: Params, front: seq<Action>, m: Monitor, a: Action, n: Monitor)
    requires P.Ok() && Known(P, front, m.phase) && Next(P, m, a) == Some(n) && n.phase.LoginDue?
    ensures Known(P, front + [a], n.phase)
  {
    hide Opens, LoginOf, ReplyDelay, Matches, Answered;
    var tr := front + [a];
    if a.Send? && !m.phase.ResendDue? && !m.phase.LoginDue? {
      OpensShape(P, m, a.packet);
    }
    var k: nat, j: nat :| Answered(P, front, 0x02, k, j, n.phase.seed) && NoSend(front, j + 1, |front|);
    AnswerStays(P, front, a, 0x02, k, j, n.phase.seed);
    assert Answered(P, tr, 0x02, k, j, n.phase.seed) && NoSend(tr, j + 1, |tr|);
  }

  lemma StepToLoginWait(P: Params, front: seq<Action>, m: Monitor, a: Action, n: Monitor)
    requires P.Ok() && Known(P, front, m.phase) && Next(P, m, a) == Some(n) && n.phase.LoginWait?
    requires LoginsCounted(P, AwaitsLogin(front), LoginsSince(P, front), m)
    ensures Known(P, front + [a], n.phase)
  {
    hide Opens, LoginOf, ReplyDelay, Matches, Answered, LoginSent, AddressesParse, LoginsSince, AwaitsLogin, TemplateAt;
    if a.Send? {
      if !m.phase.ResendDue? && !m.phase.LoginDue? {
        OpensShape(P, m, a.packet);
      }
      LoginNeeds(P.cfg, n.phase.seed, Template(P, m), P.signed);
      LoginGoesOut(P, front, n.phase.seed, a, m.fails);
    } else {
      var k: nat, j: nat, l: nat :| LoginSent(P, front, k, j, l, n.phase.seed) && NoSend(front, l + 1, |front|);
      SentStays(P, front, a, k, j, l, n.phase.seed);
      assert NoSend(front + [a], l + 1, |front| + 1);
    }
  }

  lemma LoginGoesOut(P: Params, front: seq<Action>, seed: Four, a: Action, fails: nat)
    requires P.Ok() && a.Send? && a.dest == P.server && fails == LoginsSince(P, front)
    requires LoginOf(P.cfg, seed, JluTemplate(P.cfg.jluMode, fails), P.signed) == Some(a.packet)
    requires exists k: nat, j: nat :: Answered(P, front, 0x02, k, j, seed) && NoSend(front, j + 1, |front|)
    ensures Known(P, front + [a], LoginWait(seed))
  {
    hide LoginOf, LoginsSince, JluTemplate;
    var tr := front + [a];
    assert tr[..|front|] == front;
    var k: nat, j: nat :| Answered(P, front, 0x02, k, j, seed) && NoSend(front, j + 1, |front|);
    AnswerStays(P, front, a, 0x02, k, j, seed);
    assert tr[|front|] == a && NoSend(tr, j + 1, |front|);
    assert LoginSent(P, tr, k, j, |front|, seed) && NoSend(tr, |front| + 1, |tr|);
  }

  lemma AnswerStays(P: Params, front: seq<Action>, a: Action, code: byte, k: nat, j: nat, seed: seq<byte>)
    requires Answered(P, front, code, k, j, seed)
    ensures Answered(P, front + [a], code, k, j, seed)
  {
  }

  lemma SentStays(P: Params, front: seq<Action>, a: Action, k: nat, j: nat, l: nat, seed: seq<byte>)
    requires P.Ok() && LoginSent(P, front, k, j, l, seed)
    ensures LoginSent(P, front + [a], k, j, l, seed)
  {
    hide LoginOf, Answered, TemplateAt;
    AnswerStays(P, front, a, 0x02, k, j, seed);
    TemplateStays(P, front, front + [a], l);
  }

  lemma StaysLoggedIn(P: Params, front: seq<Action>, a: Action, k: nat, j: nat, l: nat, r: nat,
    seed: seq<byte>, key: seq<byte>)
    requires P.Ok() && LoggedIn(P, front, k, j, l, r, seed, key)
    ensures LoggedIn(P, front + [a], k, j, l, r, seed, key)
  {
    SentStays(P, front, a, k, j, l, seed);
  }

  lemma StepToOther(P: Params, front: seq<Action>, m: Monitor, a: Action, n: Monitor)
    requires P.Ok() && Known(P, front, m.phase) && Next(P, m, a) == Some(n)
    requires !(n.phase.Waiting? && n.phase.goal.Ask?) && !(n.phase.ResendDue? && n.phase.goal.Ask?)
    requires !n.phase.Seeded? && !n.phase.LoginDue? && !n.phase.LoginWait?
    ensures Known(P, front + [a], n.phase)
  {
    hide LoggedIn, LoginSent, Holds;
    OtherStep(P, front, m, a, n);
    if KeyOf(n.phase).Some? {
      KeyStep(P, m, a, n);
      if m.phase.LoginWait? {
        KeyArrives(P, front, m.phase.seed, a.got, KeyOf(n.phase).value);
      } else {
        KeyStays(P, front, a, KeyOf(n.phase).value, SeedOf(m.phase), SeedOf(n.phase));
      }
    }
  }

  /** The packets of the other exchanges. */
  lemma OtherStep(P: Params, front: seq<Action>, m: Monitor, a: Action, n: Monitor)
    requires P.Ok() && Known(P, front, m.phase) && Next(P, m, a) == Some(n)
    requires !(n.phase.Waiting? && n.phase.goal.Ask?) && !(n.phase.ResendDue? && n.phase.goal.Ask?)
    ensures OtherPacket(n.phase)
    ensures KeyOf(n.phase).Some? && a.Send? ==> !IsAsk(a.packet) && !IsLogin(a.packet)
    ensures KeyOf(n.phase).Some? && !m.phase.LoginWait? ==> Holds(P, front, KeyOf(n.phase).value, SeedOf(m.phase))
  {
    hide Opens, LoginOf, ReplyDelay, Matches, AskPattern, Holds;
    if KeyOf(n.phase).Some? {
      KeyStep(P, m, a, n);
    }
    if a.Send? && !m.phase.ResendDue? && !m.phase.LoginDue? {
      OpensShape(P, m, a.packet);
    }
  }

  lemma KeyArrives(P: Params, front: seq<Action>, seed: Four, got: Received, key: Key)
    requires P.Ok() && got.Datagram? && got.source == P.server
    requires exists k: nat, j: nat, l: nat :: LoginSent(P, front, k, j, l, seed) && NoSend(front, l + 1, |front|)
    requires |got.bytes| >= 39 && got.bytes[0] == 0x04 && key == got.bytes[23..39]
    ensures Holds(P, front + [Receive(got)], key, Some(seed))
  {
    hide LoginSent, LoginOf;
    var tr := front + [Receive(got)];
    var k: nat, j: nat, l: nat :| LoginSent(P, front, k, j, l, seed) && NoSend(front, l + 1, |front|);
    SentStays(P, front, Receive(got), k, j, l, seed);
    SentBefore(P, front, k, j, l, seed);
    assert tr[|front|] == Receive(got) && NoSend(tr, l + 1, |front|);
    assert LoggedIn(P, tr, k, j, l, |front|, seed, key);
    assert NoLogin(tr, |front| + 1);
  }

  lemma SentBefore(P: Params, tr: seq<Action>, k: nat, j: nat, l: nat, seed: seq<byte>)
    requires P.Ok() && LoginSent(P, tr, k, j, l, seed)
    ensures l < |tr|
  {
    hide LoginOf;
  }

  lemma KeyStays(P: Params, front: seq<Action>, a: Action, key: Key, before: Option<Four>, after: Option<Four>)
    requires P.Ok() && Holds(P, front, key, before) && (after.Some? ==> before == after)
    requires a.Send? ==> !IsAsk(a.packet) && !IsLogin(a.packet)
    ensures Holds(P, front + [a], key, after)
  {
    hide LoggedIn;
    var k: nat, j: nat, l: nat, r: nat, s: Four :|
      LoggedIn(P, front, k, j, l, r, s, key) && NoLogin(front, r + 1) && (before.Some? ==> before.value == s);
    StaysLoggedIn(P, front, a, k, j, l, r, s, key);
    assert NoLogin(front + [a], r + 1);
  }

  // ---- The theorems ---------------------------------------------------------------------------

  /** Which phase sends a login, and which sends anything else. */
  lemma SendPhase(P: Params, tr: seq<Action>, m: Monitor, a: Action, n: Monitor)
    requires P.Ok() && Known(P, tr, m.phase) && a.Send? && Next(P, m, a) == Some(n)
    ensures a.dest == P.server
    ensures IsLogin(a.packet) <==> m.phase.LoginDue?
    ensures IsAsk(a.packet) <==> m.phase.AskDue? || (m.phase.ResendDue? && m.phase.goal.Ask?)
  {
    hide Opens, LoginOf, Answered, LoginSent, LoggedIn, Holds;
    match m.phase
    case LoginDue(seed) => LoginShape(P.cfg, seed, Template(P, m), P.signed);
    case ResendDue(goal, packet, pattern, failures) =>
    case _ => OpensShape(P, m, a.packet); OpensGoal(P, m, a.packet);
  }

  lemma OpensGoal(P: Params, m: Monitor, packet: seq<byte>)
    requires P.Ok() && Opens(P, m, packet).Some?
    ensures m.phase.AskDue? <==> Opens(P, m, packet).value.goal.Ask?
  {
    hide PlainBeat, BeatReply, Beat2, Challenge, Logout;
  }

  /** Every login packet follows the server's answer to a challenge with nothing sent in between, and is
      the login packet of the seed in that answer. */
  lemma LoginFollowsChallenge(P: Params, tr: seq<Action>, i: nat)
    requires P.Ok() && Accepts(P, tr) && i < |tr| && tr[i].Send? && IsLogin(tr[i].packet)
    ensures exists k: nat, j: nat, seed: Four :: LoginSent(P, tr, k, j, i, seed)
  {
    hide Run, LoginOf, Opens, Answered, AddressesParse, LoginsSince, AwaitsLogin;
    var front, a := tr[..i], tr[i];
    PrefixRuns(P, tr, i);
    Knows(P, front);
    ReachableLogins(P, front);
    var m := Run(P, front).value;
    SendPhase(P, front, m, a, Run(P, tr[..i + 1]).value);
    var seed := m.phase.seed;
    LoginNeeds(P.cfg, seed, Template(P, m), P.signed);
    var k: nat, j: nat :| Answered(P, front, 0x02, k, j, seed) && NoSend(front, j + 1, |front|);
    AnswerExtends(P, front, tr, 0x02, k, j, seed);
    assert NoSend(tr, j + 1, i) && LoginSent(P, tr, k, j, i, seed);
  }

  lemma AnswerExtends(P: Params, front: seq<Action>, tr: seq<Action>, code: byte, k: nat, j: nat, seed: seq<byte>)
    requires Answered(P, front, code, k, j, seed) && front <= tr
    ensures Answered(P, tr, code, k, j, seed) && j < |front|
  {
  }

  lemma LoggedInExtends(P: Params, front: seq<Action>, tr: seq<Action>, k: nat, j: nat, l: nat, r: nat,
    seed: seq<byte>, key: seq<byte>)
    requires P.Ok() && LoggedIn(P, front, k, j, l, r, seed, key) && front <= tr
    ensures LoggedIn(P, tr, k, j, l, r, seed, key) && r < |front|
  {
    hide LoginOf, Answered, TemplateAt;
    AnswerExtends(P, front, tr, 0x02, k, j, seed);
    TemplateStays(P, front, tr, l);
  }

  /** No answer serves two logins: between two login packets another challenge went out. */
  lemma OneLoginPerAnswer(P: Params, tr: seq<Action>, i: nat, i': nat)
    requires P.Ok() && Accepts(P, tr) && i < i' < |tr|
    requires tr[i].Send? && IsLogin(tr[i].packet) && tr[i'].Send? && IsLogin(tr[i'].packet)
    ensures exists k: nat, j: nat, seed: Four :: LoginSent(P, tr, k, j, i', seed) && i < k < j
  {
    hide LoginOf;
    LoginFollowsChallenge(P, tr, i');
    var k: nat, j: nat, seed: Four :| LoginSent(P, tr, k, j, i', seed);
    assert i <= j;
    assert i <= k;
    assert i < k < j;
  }

  /** A keepalive of the first kind: in answer to a keepalive seed, or with the digest of the login. */
  predicate IsFirstBeat(cfg: Config, packet: seq<byte>, seed: Four, key: Key) {
    if cfg.keepalive1Mod then |packet| == 38 && packet == BeatReply(packet[8..12], key, packet[36], packet[37])
    else |packet| == 42 && packet == PlainBeat(cfg, seed, key, packet[36], packet[37])
  }

  /** A challenge is given by its code and its random bytes. */
  ghost predicate IsChallenge(P: Params, packet: seq<byte>, code: byte)
    requires P.Ok()
  {
    |packet| == 20 && packet == Challenge(code, packet[2], packet[3], P.cfg.authVersion[0])
  }

  /** The counter byte of the exchange under way. */
  function NumberOf(link: Link): byte {
    CounterByte(if link.exchanges > 0 then link.exchanges - 1 else 0)
  }

  /** The packets of the second keepalive; the one of type 3 has a tail. */
  ghost predicate IsSecondFor(P: Params, goal: Goal, packet: seq<byte>)
    requires P.Ok()
  {
    match goal
    case Extra(link) =>
      packet == Beat2(P.cfg, NumberOf(link), ExtraOfRound(P.cfg.jluMode, link.rounds), false, NO_TAIL)
    case First(link) => packet == Beat2(P.cfg, NumberOf(link), NoExtra, false, NO_TAIL)
    case Third(link) => exists tail: Four :: packet == Beat2(P.cfg, NumberOf(link), NoExtra, true, tail)
    case _ => true
  }

  /** What each kind of exchange keeps sending. */
  ghost predicate Fits(P: Params, goal: Goal, packet: seq<byte>, pattern: Pattern)
    requires P.Ok()
  {
    match goal
    case Beat(link) => IsBeat(packet) && |packet| != 40 && IsFirstBeat(P.cfg, packet, link.seed, link.key)
    case BeatSeed(link) => P.cfg.keepalive1Mod && packet == BEAT_ASK
    case Logoff(key, seed) => IsLogout(packet) && packet == Logout(P.cfg, seed, key)
    case LogoutAsk(key) => IsLogoutAsk(packet) && IsChallenge(P, packet, 0x03) && pattern == AskPattern(packet)
    case Ask => IsAsk(packet) && IsChallenge(P, packet, 0x02)
    case _ =>
      && IsSecondFor(P, goal, packet) && goal.link.exchanges > 0 && |packet| == 40 && packet[0] == 0x07
      && packet[1] == CounterByte(goal.link.exchanges - 1)
      && pattern.first == Some(0x07) && pattern.alternate.None? && pattern.second == Some(packet[1])
  }

  ghost predicate PhaseFits(P: Params, phase: Phase)
    requires P.Ok()
  {
    && (phase.Waiting? ==> Fits(P, phase.goal, phase.packet, phase.pattern))
    && (phase.ResendDue? ==> Fits(P, phase.goal, phase.packet, phase.pattern))
  }

  lemma OpensFits(P: Params, m: Monitor, packet: seq<byte>)
    requires P.Ok() && Opens(P, m, packet).Some?
    ensures Fits(P, Opens(P, m, packet).value.goal, packet, Opens(P, m, packet).value.pattern)
  {
    hide PlainBeat, BeatReply, Beat2, Challenge, Logout, CounterByte;
    OpensShape(P, m, packet);
    match m.phase
    case BeatReplyDue(link, beatSeed) => BeatReplySeed(beatSeed, link.key, packet[36], packet[37]);
    case ThirdDue(link, tail) => assert packet == Beat2(P.cfg, NumberOf(Begun(link)), NoExtra, true, tail);
    case _ =>
  }

  lemma BeatReplySeed(beatSeed: Four, key: Key, r1: byte, r2: byte)
    ensures BeatReply(beatSeed, key, r1, r2)[8..12] == beatSeed
  {
    hide Crc;
  }

  lemma {:induction false} ReachableFits(P: Params, tr: seq<Action>)
    requires P.Ok() && Accepts(P, tr)
    ensures PhaseFits(P, Run(P, tr).value.phase)
  {
    hide PhaseFits, Next;
    if tr == [] {
      StartFits(P);
    } else {
      LastStep(P, tr);
      ReachableFits(P, tr[..|tr| - 1]);
      FitsStep(P, Run(P, tr[..|tr| - 1]).value, tr[|tr| - 1], Run(P, tr).value);
    }
  }

  lemma StartFits(P: Params)
    requires P.Ok()
    ensures PhaseFits(P, START.phase)
  {
  }

  lemma FitsStep(P: Params, m: Monitor, a: Action, n: Monitor)
    requires P.Ok() && PhaseFits(P, m.phase) && Next(P, m, a) == Some(n)
    ensures PhaseFits(P, n.phase)
  {
    hide Opens, LoginOf, ReplyDelay, Matches, Fits;
    if a.Send? && !m.phase.ResendDue? && !m.phase.LoginDue? {
      OpensFits(P, m, a.packet);
    }
  }
}
