/** What the keepalive packets copy from the server's replies. */
module Echoes {
  import opened Words
  import opened Text
  import opened Settings
  import opened Layout
  import opened RetryPolicy
  import opened Net
  import opened Beats
  import opened Session
  import opened Safety

  /** The answer to a keepalive seed; no other packet has its length and first byte. */
  predicate IsBeatReply(packet: seq<byte>) {
    |packet| == 38 && packet[0] == 0xff
  }

  /** The second keepalive of type 1 or 3. */
  predicate IsSecondOf(packet: seq<byte>, kind: byte) {
    |packet| == 40 && packet[0] == 0x07 && packet[5] == kind
  }

  const SEED_PATTERN := Any(0x07, 12)

  /** At k this packet went out and was the last one before j, where the server's reply to it passes the filter;
      four bytes of the reply are these. */
  ghost predicate Copied(P: Params, tr: seq<Action>, k: nat, j: nat, asked: seq<byte>, p: Pattern, place: nat,
    four: seq<byte>)
  {
    && k < j < |tr| && Carries(tr[k], P.server, asked) && NoSend(tr, k + 1, j) && Hears(tr[j], P.server, p)
    && place + 4 <= |tr[j].got.bytes| && four == tr[j].got.bytes[place..place + 4]
  }

  /** From a place up to another only this packet is sent. */
  ghost predicate OnlySends(tr: seq<Action>, from: nat, end: nat, packet: seq<byte>) {
    forall x :: from <= x < end && x < |tr| && tr[x].Send? ==> tr[x].packet == packet
  }

  /** The packet repeats the seed of the reply to the request for one, and was the only one sent since. */
  ghost predicate EchoesSeed(P: Params, tr: seq<Action>, end: nat, packet: seq<byte>) {
    && IsBeatReply(packet)
    && exists k: nat, j: nat ::
         Copied(P, tr, k, j, BEAT_ASK, SEED_PATTERN, 8, packet[8..12]) && j < end && OnlySends(tr, j + 1, end, packet)
  }

  /** The packet repeats the tail of the reply to a packet of type 1, whose counter that reply has. */
  ghost predicate EchoesTail(P: Params, tr: seq<Action>, end: nat, packet: seq<byte>) {
    && IsSecondOf(packet, 0x03)
    && exists asked: seq<byte>, k: nat, j: nat ::
         TailCopied(P, tr, k, j, asked, packet[16..20]) && j < end && OnlySends(tr, j + 1, end, packet)
  }

  ghost predicate TailCopied(P: Params, tr: seq<Action>, k: nat, j: nat, asked: seq<byte>, tail: seq<byte>) {
    IsSecondOf(asked, 0x01) && Copied(P, tr, k, j, asked, FirstPattern(asked[1]), 16, tail)
  }

  ghost predicate AskedLast(P: Params, tr: seq<Action>, packet: seq<byte>) {
    exists k: nat :: k < |tr| && Carries(tr[k], P.server, packet) && NoSend(tr, k + 1, |tr|)
  }

  // ---- What the automaton knows ---------------------------------------------------------------

  /** The packets of an exchange, and its filter. */
  ghost predicate Shaped(goal: Goal, packet: seq<byte>, pattern: Pattern) {
    match goal
    case BeatSeed(_) => packet == BEAT_ASK && pattern == SEED_PATTERN
    case First(_) => IsSecondOf(packet, 0x01) && pattern == FirstPattern(packet[1])
    case Extra(_) => IsSecondOf(packet, 0x01)
    case Third(_) => IsSecondOf(packet, 0x03)
    case Beat(_) => IsBeatReply(packet) || (!IsBeatReply(packet) && !IsSecondOf(packet, 0x03))
    case _ => !IsBeatReply(packet) && !IsSecondOf(packet, 0x03)
  }

  /** What an exchange that copies something has copied it from. */
  ghost predicate Sourced(P: Params, tr: seq<Action>, goal: Goal, packet: seq<byte>) {
    && (goal.Beat? && IsBeatReply(packet) ==> EchoesSeed(P, tr, |tr|, packet))
    && (goal.Third? ==> EchoesTail(P, tr, |tr|, packet))
  }

  ghost predicate Echo(P: Params, tr: seq<Action>, phase: Phase) {
    match phase
    case Waiting(goal, packet, pattern, _) =>
      && Shaped(goal, packet, pattern) && Sourced(P, tr, goal, packet)
      && (goal.BeatSeed? || goal.First? ==> AskedLast(P, tr, packet))
    case ResendDue(goal, packet, pattern, _) => Shaped(goal, packet, pattern) && Sourced(P, tr, goal, packet)
    case BeatReplyDue(_, seed) =>
      exists k: nat, j: nat :: Copied(P, tr, k, j, BEAT_ASK, SEED_PATTERN, 8, seed) && NoSend(tr, j + 1, |tr|)
    case ThirdDue(_, tail) =>
      exists asked: seq<byte>, k: nat, j: nat :: TailCopied(P, tr, k, j, asked, tail) && NoSend(tr, j + 1, |tr|)
    case _ => true
  }

  // ---- How traces grow ------------------------------------------------------------------------

  lemma CopiedStays(P: Params, front: seq<Action>, tr: seq<Action>, k: nat, j: nat, asked: seq<byte>, p: Pattern,
    place: nat, four: seq<byte>)
    requires Copied(P, front, k, j, asked, p, place, four) && front <= tr
    ensures Copied(P, tr, k, j, asked, p, place, four)
  {
    hide Accepted;
  }

  lemma SeedStays(P: Params, front: seq<Action>, a: Action, packet: seq<byte>)
    requires EchoesSeed(P, front, |front|, packet) && (a.Send? ==> a.packet == packet)
    ensures EchoesSeed(P, front + [a], |front| + 1, packet)
  {
    hide Accepted, Copied;
    var k: nat, j: nat :|
      Copied(P, front, k, j, BEAT_ASK, SEED_PATTERN, 8, packet[8..12]) && j < |front|
      && OnlySends(front, j + 1, |front|, packet);
    CopiedStays(P, front, front + [a], k, j, BEAT_ASK, SEED_PATTERN, 8, packet[8..12]);
    assert OnlySends(front + [a], j + 1, |front| + 1, packet);
  }

  lemma TailStays(P: Params, front: seq<Action>, a: Action, packet: seq<byte>)
    requires EchoesTail(P, front, |front|, packet) && (a.Send? ==> a.packet == packet)
    ensures EchoesTail(P, front + [a], |front| + 1, packet)
  {
    hide Accepted, Copied;
    var asked: seq<byte>, k: nat, j: nat :|
      TailCopied(P, front, k, j, asked, packet[16..20]) && j < |front| && OnlySends(front, j + 1, |front|, packet);
    CopiedStays(P, front, front + [a], k, j, asked, FirstPattern(asked[1]), 16, packet[16..20]);
    assert TailCopied(P, front + [a], k, j, asked, packet[16..20]);
    assert OnlySends(front + [a], j + 1, |front| + 1, packet);
  }

  /** The first packet that repeats a seed. */
  lemma SeedSent(P: Params, front: seq<Action>, seed: Four, a: Action)
    requires exists k: nat, j: nat ::
               Copied(P, front, k, j, BEAT_ASK, SEED_PATTERN, 8, seed) && NoSend(front, j + 1, |front|)
    requires a.Send? && IsBeatReply(a.packet) && a.packet[8..12] == seed
    ensures EchoesSeed(P, front + [a], |front| + 1, a.packet)
  {
    hide Accepted;
    var k: nat, j: nat :| Copied(P, front, k, j, BEAT_ASK, SEED_PATTERN, 8, seed) && NoSend(front, j + 1, |front|);
    CopiedStays(P, front, front + [a], k, j, BEAT_ASK, SEED_PATTERN, 8, seed);
    assert OnlySends(front + [a], j + 1, |front| + 1, a.packet);
  }

  lemma TailSent(P: Params, front: seq<Action>, tail: Four, a: Action)
    requires exists asked: seq<byte>, k: nat, j: nat ::
               TailCopied(P, front, k, j, asked, tail) && NoSend(front, j + 1, |front|)
    requires a.Send? && IsSecondOf(a.packet, 0x03) && a.packet[16..20] == tail
    ensures EchoesTail(P, front + [a], |front| + 1, a.packet)
  {
    hide Accepted;
    var asked: seq<byte>, k: nat, j: nat :| TailCopied(P, front, k, j, asked, tail) && NoSend(front, j + 1, |front|);
    CopiedStays(P, front, front + [a], k, j, asked, FirstPattern(asked[1]), 16, tail);
    assert TailCopied(P, front + [a], k, j, asked, a.packet[16..20]);
    assert OnlySends(front + [a], j + 1, |front| + 1, a.packet);
  }

  /** A reply to the packet sent last. */
  lemma ReplyCopied(P: Params, front: seq<Action>, packet: seq<byte>, got: Received, p: Pattern, place: nat)
    returns (k: nat)
    requires AskedLast(P, front, packet) && Accepted(got, P.server, p) && place + 4 <= |got.bytes|
    ensures var tr := front + [Receive(got)];
            && Copied(P, tr, k, |front|, packet, p, place, got.bytes[place..place + 4])
            && NoSend(tr, |front| + 1, |tr|)
  {
    hide Matches;
    var i: nat :| i < |front| && Carries(front[i], P.server, packet) && NoSend(front, i + 1, |front|);
    k := i;
  }

  // ---- The steps ------------------------------------------------------------------------------

  lemma BeatBytes(cfg: Config, seed: seq<byte>, beatSeed: seq<byte>, key: seq<byte>, r1: byte, r2: byte)
    requires |key| == 16 && |beatSeed| == 4
    ensures var p := BeatReply(beatSeed, key, r1, r2); IsBeatReply(p) && p[8..12] == beatSeed
    ensures !IsBeatReply(PlainBeat(cfg, seed, key, r1, r2)) && !IsSecondOf(PlainBeat(cfg, seed, key, r1, r2), 0x03)
  {
    BeatShapes(cfg, seed, key, beatSeed, r1, r2);
    BeatReplySeed(beatSeed, key, r1, r2);
    hide Md5A, Crc, BeatReply, PlainBeat;
  }

  lemma Beat2Bytes(cfg: Config, counter: byte, kind: ExtraKind, third: bool, tail: seq<byte>)
    requires cfg.Fits() && |tail| == 4
    ensures var p := Beat2(cfg, counter, kind, third, tail);
            && IsSecondOf(p, if third then 0x03 else 0x01) && p[1] == counter && (third ==> p[16..20] == tail)
  {
    hide HostIp;
  }

  /** What the opening packet of an exchange looks like, and what it copies. */
  lemma OpensEcho(P: Params, m: Monitor, packet: seq<byte>)
    requires P.Ok() && Opens(P, m, packet).Some?
    ensures var o := Opens(P, m, packet).value;
            && Shaped(o.goal, packet, o.pattern)
            && (o.goal.Beat? && IsBeatReply(packet) ==> m.phase.BeatReplyDue? && packet[8..12] == m.phase.beatSeed)
            && (o.goal.Third? ==> m.phase.ThirdDue? && IsSecondOf(packet, 0x03) && packet[16..20] == m.phase.tail)
            && (o.base.phase == m.phase)
  {
    hide PlainBeat, BeatReply, Beat2, Challenge, Logout, CounterByte;
    OpensShape(P, m, packet);
    match m.phase
    case BeatDue(link) =>
      if !P.cfg.keepalive1Mod {
        BeatBytes(P.cfg, link.seed, [0, 0, 0, 0], link.key, packet[36], packet[37]);
      }
    case BeatReplyDue(link, beatSeed) => BeatBytes(P.cfg, link.seed, beatSeed, link.key, packet[36], packet[37]);
    case ExtraDue(link) =>
      Beat2Bytes(P.cfg, CounterByte(link.exchanges), ExtraOfRound(P.cfg.jluMode, link.rounds), false, NO_TAIL);
    case FirstDue(link) => Beat2Bytes(P.cfg, CounterByte(link.exchanges), NoExtra, false, NO_TAIL);
    case ThirdDue(link, tail) => Beat2Bytes(P.cfg, CounterByte(link.exchanges), NoExtra, true, tail);
    case _ =>
  }

  lemma EchoOpens(P: Params, front: seq<Action>, m: Monitor, a: Action, n: Monitor)
    requires P.Ok() && Echo(P, front, m.phase) && Next(P, m, a) == Some(n) && a.Send?
    requires !m.phase.ResendDue? && !m.phase.LoginDue?
    ensures Echo(P, front + [a], n.phase)
    ensures IsBeatReply(a.packet) ==> EchoesSeed(P, front + [a], |front| + 1, a.packet)
    ensures IsSecondOf(a.packet, 0x03) ==> EchoesTail(P, front + [a], |front| + 1, a.packet)
  {
    hide Opens, Copied, TailCopied, EchoesSeed, EchoesTail, LoginOf, Shaped;
    var tr := front + [a];
    OpensEcho(P, m, a.packet);
    OpensKinds(P, m, a.packet);
    var o := Opens(P, m, a.packet).value;
    if IsBeatReply(a.packet) {
      SeedSent(P, front, m.phase.beatSeed, a);
    }
    if IsSecondOf(a.packet, 0x03) {
      TailSent(P, front, m.phase.tail, a);
    }
    assert Carries(tr[|front|], P.server, a.packet) && NoSend(tr, |front| + 1, |tr|);
    assert AskedLast(P, tr, a.packet);
    SettledQuiet(o.goal);
  }

  /** Which exchanges such packets can open. */
  lemma OpensKinds(P: Params, m: Monitor, packet: seq<byte>)
    requires P.Ok() && Opens(P, m, packet).Some?
    ensures IsBeatReply(packet) ==> m.phase.BeatReplyDue? && packet[8..12] == m.phase.beatSeed
    ensures IsSecondOf(packet, 0x03) ==> m.phase.ThirdDue? && packet[16..20] == m.phase.tail
  {
    hide Opens;
    OpensEcho(P, m, packet);
  }

  /** Without a reply no exchange leads to a packet that copies something. */
  lemma SettledQuiet(goal: Goal)
    ensures var phase := PhaseAfter(goal, None);
            !phase.Waiting? && !phase.ResendDue? && !phase.BeatReplyDue? && !phase.ThirdDue?
  {
  }

  lemma EchoResend(P: Params, front: seq<Action>, m: Monitor, a: Action, n: Monitor)
    requires P.Ok() && Echo(P, front, m.phase) && Next(P, m, a) == Some(n) && a.Send? && m.phase.ResendDue?
    ensures Echo(P, front + [a], n.phase)
    ensures IsBeatReply(a.packet) ==> EchoesSeed(P, front + [a], |front| + 1, a.packet)
    ensures IsSecondOf(a.packet, 0x03) ==> EchoesTail(P, front + [a], |front| + 1, a.packet)
  {
    hide Copied, TailCopied, EchoesSeed, EchoesTail, LoginOf, Opens;
    var tr := front + [a];
    var goal := m.phase.goal;
    if IsBeatReply(a.packet) {
      SeedStays(P, front, a, a.packet);
    }
    if IsSecondOf(a.packet, 0x03) {
      TailStays(P, front, a, a.packet);
    }
    assert Carries(tr[|front|], P.server, a.packet) && NoSend(tr, |front| + 1, |tr|);
    assert AskedLast(P, tr, a.packet);
    SettledQuiet(goal);
  }

  lemma EchoReceive(P: Params, front: seq<Action>, m: Monitor, a: Action, n: Monitor)
    requires P.Ok() && Echo(P, front, m.phase) && Next(P, m, a) == Some(n) && a.Receive? && m.phase.Waiting?
    ensures Echo(P, front + [a], n.phase)
  {
    hide Copied, EchoesSeed, EchoesTail, LoginOf, Opens, Matches, FirstPattern;
    var tr := front + [a];
    var goal, packet, pattern := m.phase.goal, m.phase.packet, m.phase.pattern;
    if Accepted(a.got, P.server, pattern) {
      LongEnough(goal, packet, pattern, a.got.bytes);
      if goal.BeatSeed? {
        var _ := ReplyCopied(P, front, packet, a.got, pattern, 8);
      } else if goal.First? {
        var k := ReplyCopied(P, front, packet, a.got, pattern, 16);
        assert TailCopied(P, tr, k, |front|, packet, a.got.bytes[16..20]);
      }
    } else {
      if goal.Beat? && IsBeatReply(packet) {
        SeedStays(P, front, a, packet);
      }
      if goal.Third? {
        TailStays(P, front, a, packet);
      }
      if goal.BeatSeed? || goal.First? {
        LastStays(P, front, a, packet);
      }
    }
  }

  lemma LastStays(P: Params, front: seq<Action>, a: Action, packet: seq<byte>)
    requires AskedLast(P, front, packet) && !a.Send?
    ensures AskedLast(P, front + [a], packet)
  {
    var k: nat :| k < |front| && Carries(front[k], P.server, packet) && NoSend(front, k + 1, |front|);
    var tr := front + [a];
    assert Carries(tr[k], P.server, packet) && NoSend(tr, k + 1, |tr|);
  }

  lemma LongEnough(goal: Goal, packet: seq<byte>, pattern: Pattern, reply: seq<byte>)
    requires Shaped(goal, packet, pattern) && Matches(reply, pattern)
    ensures goal.BeatSeed? ==> |reply| >= 12
    ensures goal.First? ==> |reply| >= 20
  {
  }

  lemma EchoStep(P: Params, front: seq<Action>, m: Monitor, a: Action, n: Monitor)
    requires P.Ok() && Echo(P, front, m.phase) && Next(P, m, a) == Some(n)
    ensures Echo(P, front + [a], n.phase)
    ensures a.Send? && IsBeatReply(a.packet) ==> EchoesSeed(P, front + [a], |front| + 1, a.packet)
    ensures a.Send? && IsSecondOf(a.packet, 0x03) ==> EchoesTail(P, front + [a], |front| + 1, a.packet)
  {
    hide Echo, EchoesSeed, EchoesTail, Next;
    if a.Send? && m.phase.ResendDue? {
      EchoResend(P, front, m, a, n);
    } else if a.Send? && m.phase.LoginDue? {
      EchoLogin(P, front, m, a, n);
    } else if a.Send? {
      EchoOpens(P, front, m, a, n);
    } else if a.Receive? && m.phase.Waiting? {
      EchoReceive(P, front, m, a, n);
    } else {
      EchoQuiet(P, front, m, a, n);
    }
  }

  lemma EchoLogin(P: Params, front: seq<Action>, m: Monitor, a: Action, n: Monitor)
    requires P.Ok() && Next(P, m, a) == Some(n) && a.Send? && m.phase.LoginDue?
    ensures Echo(P, front + [a], n.phase) && !IsBeatReply(a.packet) && !IsSecondOf(a.packet, 0x03)
  {
    hide LoginOf;
    LoginShape(P.cfg, m.phase.seed, Template(P, m), P.signed);
  }

  lemma EchoQuiet(P: Params, front: seq<Action>, m: Monitor, a: Action, n: Monitor)
    requires P.Ok() && Next(P, m, a) == Some(n) && !a.Send? && !(a.Receive? && m.phase.Waiting?)
    ensures Echo(P, front + [a], n.phase)
  {
    hide LoginOf, ReplyDelay, AddressesParse, Matches;
  }

  lemma StartEcho(P: Params)
    ensures Echo(P, [], START.phase)
  {
  }

  lemma {:induction false} ReachableEcho(P: Params, tr: seq<Action>)
    requires P.Ok() && Safety.Accepts(P, tr)
    ensures Echo(P, tr, Run(P, tr).value.phase)
  {
    hide Next, Echo;
    if tr == [] {
      StartEcho(P);
    } else {
      var front, a := tr[..|tr| - 1], tr[|tr| - 1];
      LastStep(P, tr);
      ReachableEcho(P, front);
      assert tr == front + [a];
      EchoStep(P, front, Run(P, front).value, a, Run(P, tr).value);
    }
  }

  /** Each answer to a keepalive seed repeats bytes 8 to 11 of the server's reply to the request for one, and each
      packet of type 3 repeats bytes 16 to 19 of the server's reply to the packet of type 1 before it; in between
      nothing but the packet itself was sent. */
  lemma BeatsEcho(P: Params, tr: seq<Action>, i: nat)
    requires P.Ok() && Safety.Accepts(P, tr) && i < |tr| && tr[i].Send?
    ensures IsBeatReply(tr[i].packet) ==> EchoesSeed(P, tr[..i + 1], i + 1, tr[i].packet)
    ensures IsSecondOf(tr[i].packet, 0x03) ==> EchoesTail(P, tr[..i + 1], i + 1, tr[i].packet)
  {
    hide Run, Next, Echo, EchoesSeed, EchoesTail;
    var front, a := tr[..i], tr[i];
    PrefixRuns(P, tr, i);
    ReachableEcho(P, front);
    assert tr[..i + 1] == front + [a];
    EchoStep(P, front, Run(P, front).value, a, Run(P, tr[..i + 1]).value);
  }
}
