/** Which session each packet belongs to, and what it carries. */
module SessionLaws {
  import opened Words
  import opened Text
  import opened Layout
  import opened RetryPolicy
  import opened Net
  import opened Beats
  import opened Session
  import opened Safety
  import opened Counting
  import opened Echoes

  // ---- The seed of a logout -------------------------------------------------------------------

  /** The seed is that of the server's answer to a challenge for a logout, and since then only this packet was
      sent. */
  ghost predicate LogoutSeeded(P: Params, tr: seq<Action>, end: nat, packet: seq<byte>, seed: Four) {
    exists k: nat, j: nat :: SeededBy(P, tr, end, packet, seed, k, j)
  }

  ghost predicate SeededBy(P: Params, tr: seq<Action>, end: nat, packet: seq<byte>, seed: Four, k: nat, j: nat) {
    Answered(P, tr, 0x03, k, j, seed) && j < end && OnlySends(tr, j + 1, end, packet)
  }

  ghost predicate LeavingKnown(P: Params, tr: seq<Action>, phase: Phase) {
    match phase
    case Waiting(LogoutAsk(_), packet, pattern, _) => AskedLast(P, tr, packet)
    case LogoffDue(_, seed) => exists k: nat, j: nat :: Answered(P, tr, 0x03, k, j, seed) && NoSend(tr, j + 1, |tr|)
    case Waiting(Logoff(_, seed), packet, _, _) => LogoutSeeded(P, tr, |tr|, packet, seed)
    case ResendDue(Logoff(_, seed), packet, _, _) => LogoutSeeded(P, tr, |tr|, packet, seed)
    case _ => true
  }

  lemma SeededStays(P: Params, front: seq<Action>, a: Action, packet: seq<byte>, seed: Four)
    requires LogoutSeeded(P, front, |front|, packet, seed) && (a.Send? ==> a.packet == packet)
    ensures LogoutSeeded(P, front + [a], |front| + 1, packet, seed)
  {
    hide Answered;
    var k: nat, j: nat :| SeededBy(P, front, |front|, packet, seed, k, j);
    AnswerStays(P, front, a, 0x03, k, j, seed);
    assert SeededBy(P, front + [a], |front| + 1, packet, seed, k, j);
  }

  /** The answer to the challenge that was sent last. */
  lemma LogoutAnswered(P: Params, front: seq<Action>, packet: seq<byte>, got: Received)
    requires IsLogoutAsk(packet) && AskedLast(P, front, packet) && Accepted(got, P.server, AskPattern(packet))
    ensures exists k: nat, j: nat ::
              var tr := front + [Receive(got)];
              Answered(P, tr, 0x03, k, j, FourAt(got.bytes, 4)) && NoSend(tr, j + 1, |tr|)
  {
    var tr := front + [Receive(got)];
    var k: nat :| k < |front| && Carries(front[k], P.server, packet) && NoSend(front, k + 1, |front|);
    assert tr[k] == front[k] && tr[|front|] == Receive(got);
    assert Answered(P, tr, 0x03, k, |front|, FourAt(got.bytes, 4)) && NoSend(tr, |front| + 1, |tr|);
  }

  lemma LogoutGoesOut(P: Params, front: seq<Action>, seed: Four, a: Action)
    requires exists k: nat, j: nat :: Answered(P, front, 0x03, k, j, seed) && NoSend(front, j + 1, |front|)
    requires a.Send?
    ensures LogoutSeeded(P, front + [a], |front| + 1, a.packet, seed)
  {
    var k: nat, j: nat :| Answered(P, front, 0x03, k, j, seed) && NoSend(front, j + 1, |front|);
    AnswerStays(P, front, a, 0x03, k, j, seed);
    assert SeededBy(P, front + [a], |front| + 1, a.packet, seed, k, j);
  }

  lemma LeavingSend(P: Params, front: seq<Action>, m: Monitor, a: Action, n: Monitor)
    requires P.Ok() && LeavingKnown(P, front, m.phase) && Next(P, m, a) == Some(n) && a.Send?
    ensures LeavingKnown(P, front + [a], n.phase)
  {
    hide Opens, LoginOf, Answered, LogoutSeeded;
    var tr := front + [a];
    if m.phase.ResendDue? {
      if m.phase.goal.Logoff? {
        SeededStays(P, front, a, a.packet, m.phase.goal.seed);
      }
    } else if !m.phase.LoginDue? {
      OpensLink(P, m, a.packet);
      if Opens(P, m, a.packet).value.goal.Logoff? {
        LogoutGoesOut(P, front, m.phase.seed, a);
      }
    }
    assert Carries(tr[|front|], P.server, a.packet) && NoSend(tr, |front| + 1, |tr|);
    assert AskedLast(P, tr, a.packet);
  }

  lemma LeavingReceive(P: Params, front: seq<Action>, m: Monitor, a: Action, n: Monitor)
    requires P.Ok() && LeavingKnown(P, front, m.phase) && PhaseFits(P, m.phase) && Next(P, m, a) == Some(n)
    requires a.Receive? && m.phase.Waiting?
    ensures LeavingKnown(P, front + [a], n.phase)
  {
    hide Answered, LogoutSeeded, AskedLast, Matches, AskPattern, IsChallenge, IsSecondFor, IsFirstBeat, Logout;
    var goal, packet := m.phase.goal, m.phase.packet;
    if goal.Logoff? {
      SeededStays(P, front, a, packet, goal.seed);
    }
    if goal.LogoutAsk? {
      LastStays(P, front, a, packet);
      if Accepted(a.got, P.server, m.phase.pattern) {
        LogoutAnswered(P, front, packet, a.got);
      }
    }
  }

  lemma LeavingQuiet(P: Params, front: seq<Action>, m: Monitor, a: Action, n: Monitor)
    requires P.Ok() && Next(P, m, a) == Some(n) && !a.Send? && !(a.Receive? && m.phase.Waiting?)
    ensures LeavingKnown(P, front + [a], n.phase)
  {
    hide LoginOf, ReplyDelay, AddressesParse, Matches;
  }

  lemma StartLeaving(P: Params)
    ensures LeavingKnown(P, [], START.phase)
  {
  }

  lemma {:induction false} ReachableLeaving(P: Params, tr: seq<Action>)
    requires P.Ok() && Safety.Accepts(P, tr)
    ensures LeavingKnown(P, tr, Run(P, tr).value.phase)
  {
    hide Next, LeavingKnown, PhaseFits;
    if tr == [] {
      StartLeaving(P);
    } else {
      var front, a := tr[..|tr| - 1], tr[|tr| - 1];
      LastStep(P, tr);
      ReachableLeaving(P, front);
      ReachableFits(P, front);
      assert tr == front + [a];
      var m, n := Run(P, front).value, Run(P, tr).value;
      if a.Send? {
        LeavingSend(P, front, m, a, n);
      } else if a.Receive? && m.phase.Waiting? {
        LeavingReceive(P, front, m, a, n);
      } else {
        LeavingQuiet(P, front, m, a, n);
      }
    }
  }

  // ---- A send that works ----------------------------------------------------------------------

  /** The trace up to a send, as if that had worked: what was sent is then in the automaton's state. */
  function Worked(tr: seq<Action>, i: nat): (w: seq<Action>)
    requires i < |tr| && tr[i].Send?
    ensures |w| == i + 1
  {
    tr[..i] + [tr[i].(ok := true)]
  }

  lemma SendWaits(P: Params, m: Monitor, a: Action, n: Monitor)
    requires P.Ok() && Next(P, m, a) == Some(n) && a.Send? && !m.phase.LoginDue?
    ensures var after := Next(P, m, a.(ok := true));
            after.Some? && after.value.phase.Waiting? && after.value.phase.packet == a.packet
  {
    hide Opens, LoginOf;
  }

  lemma WorkedWaits(P: Params, tr: seq<Action>, i: nat)
    requires P.Ok() && Safety.Accepts(P, tr) && i < |tr| && tr[i].Send? && !IsLogin(tr[i].packet)
    ensures var w := Worked(tr, i);
            && Safety.Accepts(P, w) && Run(P, w).value.phase.Waiting?
            && Run(P, w).value.phase.packet == tr[i].packet
  {
    hide Next, Known, IsLogin;
    var front, w := tr[..i], Worked(tr, i);
    PrefixRuns(P, tr, i);
    Knows(P, front);
    var m, n := Run(P, front).value, Run(P, tr[..i + 1]).value;
    SendPhase(P, front, m, tr[i], n);
    SendWaits(P, m, tr[i], n);
    assert w[..|w| - 1] == front;
  }

  /** Whether the send worked does not matter to the counts. */
  lemma WorkedCounts(P: Params, tr: seq<Action>, i: nat)
    requires i < |tr| && tr[i].Send? && !IsLogin(tr[i].packet)
    ensures var w := Worked(tr, i);
            && BeatsSince(w) == BeatsSince(tr[..i + 1]) && BeatsInRound(w) == BeatsInRound(tr[..i + 1])
            && RoundsSince(w) == RoundsSince(tr[..i])
  {
    hide IsLogin, IsSecondBeat;
    var w, t := Worked(tr, i), tr[..i + 1];
    assert w[..i] == tr[..i] && t[..i] == tr[..i];
  }

  // ---- The second keepalive -------------------------------------------------------------------

  /** The packet of the second keepalive at i, told from what happened before: its counter is the number of the
      exchange in its session, and its kind that of its place in the round: an extra packet where the round has
      one, then type 1, then type 3 with the tail of the server's reply to type 1. */
  ghost predicate SecondOf(P: Params, tr: seq<Action>, i: nat)
    requires P.Ok() && i < |tr| && tr[i].Send?
  {
    var packet, number := tr[i].packet, BeatsSince(tr[..i + 1]);
    var extra := ExtraOfRound(P.cfg.jluMode, RoundsSince(tr[..i]));
    var place := BeatsInRound(tr[..i + 1]) + if extra.NoExtra? then 1 else 0;
    && IsSecondBeat(packet) && number > 0 && 1 <= place <= 3
    && packet == Beat2(P.cfg, CounterByte(number - 1), if place == 1 then extra else NoExtra, place == 3,
                       if place == 3 then packet[16..20] else NO_TAIL)
    && (place == 3 ==> EchoesTail(P, tr[..i + 1], i + 1, packet))
  }

  lemma SecondIs(P: Params, tr: seq<Action>, i: nat)
    requires P.Ok() && Safety.Accepts(P, tr) && i < |tr| && tr[i].Send? && !IsLogin(tr[i].packet)
    requires Run(P, Worked(tr, i)).Some?
    requires var phase := Run(P, Worked(tr, i)).value.phase;
             phase.Waiting? && phase.packet == tr[i].packet && IsSecond(phase.goal)
    ensures SecondOf(P, tr, i)
  {
    hide Run, Worked, BeatsSince, BeatsInRound, RoundsSince, LooksSince, EchoesTail, EchoesSeed, IsLogin, Beat2,
         CounterByte, ExtraOfRound;
    var w, packet := Worked(tr, i), tr[i].packet;
    var phase := Run(P, w).value.phase;
    WorkedCounts(P, tr, i);
    ReachableFits(P, w);
    ReachableBeats(P, w);
    ReachableRounds(P, w);
    if phase.goal.Third? {
      var tail: Four :| packet == Beat2(P.cfg, NumberOf(phase.goal.link), NoExtra, true, tail);
      Beat2Bytes(P.cfg, NumberOf(phase.goal.link), NoExtra, true, tail);
      BeatsEcho(P, tr, i);
    }
  }

  // ---- The theorems ---------------------------------------------------------------------------

  /** At i a session is on: a login with this seed was accepted before with this key, and no login was
      begun since. */
  ghost predicate InSession(P: Params, tr: seq<Action>, i: nat, seed: Four, key: Key)
    requires P.Ok() && i <= |tr|
  {
    exists k: nat, j: nat, l: nat, r: nat :: LoggedIn(P, tr, k, j, l, r, seed, key) && r < i && NoLogin(tr[..i], r + 1)
  }

  /** At i the logout packet of this key and of the seed in the server's answer to a challenge for one goes out;
      since the answer no other packet was sent. */
  ghost predicate LogoutSent(P: Params, tr: seq<Action>, k: nat, j: nat, i: nat, seed: Four, key: Key)
    requires P.Ok()
  {
    && Answered(P, tr, 0x03, k, j, seed) && j < i < |tr| && tr[i].Send? && tr[i].packet == Logout(P.cfg, seed, key)
    && OnlySends(tr, j + 1, i + 1, tr[i].packet)
  }

  /** What a session sends: keepalives of both kinds, each determined but for its random bytes, challenges for a
      logout, and logouts. */
  ghost predicate OfSession(P: Params, tr: seq<Action>, i: nat, seed: Four, key: Key)
    requires P.Ok() && i < |tr| && tr[i].Send?
  {
    var packet := tr[i].packet;
    || (P.cfg.keepalive1Mod && packet == BEAT_ASK)
    || IsFirstBeat(P.cfg, packet, seed, key)
    || SecondOf(P, tr, i)
    || (IsLogoutAsk(packet) && IsChallenge(P, packet, 0x03))
    || (IsLogout(packet) && exists k: nat, j: nat, logoutSeed: Four :: LogoutSent(P, tr, k, j, i, logoutSeed, key))
  }

  /** Every packet that is neither a challenge for a login nor a login goes out in a session and is one
      of that session. */
  lemma SessionPackets(P: Params, tr: seq<Action>, i: nat)
    requires P.Ok() && Safety.Accepts(P, tr) && i < |tr| && tr[i].Send?
    requires !IsAsk(tr[i].packet) && !IsLogin(tr[i].packet)
    ensures exists seed: Four, key: Key :: InSession(P, tr, i, seed, key) && OfSession(P, tr, i, seed, key)
  {
    hide Run, InSession, OfSession, Worked, IsAsk, IsLogin;
    WorkedWaits(P, tr, i);
    var w := Worked(tr, i);
    var phase := Run(P, w).value.phase;
    WorkedHolds(P, w, phase, tr[i].packet);
    var key := KeyOf(phase).value;
    var seed := HeldBefore(P, tr, i, key, SeedOf(phase));
    SentInSession(P, tr, i, phase, seed, key);
  }

  lemma WorkedHolds(P: Params, w: seq<Action>, phase: Phase, packet: seq<byte>)
    requires P.Ok() && Safety.Accepts(P, w) && Run(P, w).value.phase == phase
    requires phase.Waiting? && phase.packet == packet && !IsAsk(packet)
    ensures !phase.goal.Ask? && KeyOf(phase).Some? && Holds(P, w, KeyOf(phase).value, SeedOf(phase))
  {
    hide Run, Holds, IsAsk, IsLogin, Answered, LoginSent, IsChallenge;
    Knows(P, w);
  }

  /** What a session holds after the send it held before. */
  lemma HeldBefore(P: Params, tr: seq<Action>, i: nat, key: Key, seed: Option<Four>) returns (s: Four)
    requires P.Ok() && i < |tr| && tr[i].Send? && Holds(P, Worked(tr, i), key, seed)
    ensures InSession(P, tr, i, s, key) && (seed.Some? ==> s == seed.value)
  {
    hide LoggedIn;
    var w, front := Worked(tr, i), tr[..i];
    var k: nat, j: nat, l: nat, r: nat, s': Four :|
      LoggedIn(P, w, k, j, l, r, s', key) && NoLogin(w, r + 1) && (seed.Some? ==> seed.value == s');
    s := s';
    LoggedInAt(P, w, k, j, l, r, s, key);
    assert w[i] == tr[i].(ok := true);
    LoggedInAlike(P, w, tr, i, k, j, l, r, s, key);
    forall x | r + 1 <= x < i && front[x].Send?
      ensures !IsAsk(front[x].packet) && !IsLogin(front[x].packet)
    {
      assert w[x] == front[x];
    }
    assert NoLogin(tr[..i], r + 1);
  }

  lemma LoggedInAt(P: Params, tr: seq<Action>, k: nat, j: nat, l: nat, r: nat, seed: seq<byte>, key: seq<byte>)
    requires P.Ok() && LoggedIn(P, tr, k, j, l, r, seed, key)
    ensures r < |tr| && tr[r].Receive?
  {
    hide LoginSent;
  }

  lemma LoggedInAlike(P: Params, w: seq<Action>, tr: seq<Action>, i: nat, k: nat, j: nat, l: nat, r: nat,
    seed: seq<byte>, key: seq<byte>)
    requires P.Ok() && LoggedIn(P, w, k, j, l, r, seed, key) && r < i < |tr| && i <= |w| && w[..i] == tr[..i]
    ensures LoggedIn(P, tr, k, j, l, r, seed, key)
  {
    hide LoginOf, LoginsSince;
    assert forall x :: 0 <= x < i ==> w[x] == w[..i][x] == tr[..i][x] == tr[x];
    assert l < i && w[..l] == w[..i][..l] == tr[..i][..l] == tr[..l];
  }

  lemma SentInSession(P: Params, tr: seq<Action>, i: nat, phase: Phase, seed: Four, key: Key)
    requires P.Ok() && Safety.Accepts(P, tr) && i < |tr| && tr[i].Send? && !IsLogin(tr[i].packet)
    requires Run(P, Worked(tr, i)).Some? && Run(P, Worked(tr, i)).value.phase == phase
    requires phase.Waiting? && phase.packet == tr[i].packet && !phase.goal.Ask?
    requires KeyOf(phase) == Some(key) && (SeedOf(phase).Some? ==> SeedOf(phase).value == seed)
    ensures OfSession(P, tr, i, seed, key)
  {
    hide Run, Worked, SecondOf, LogoutSent, IsFirstBeat, IsChallenge, IsSecondFor, Logout, NumberOf, CounterByte;
    var w := Worked(tr, i);
    ReachableFits(P, w);
    if phase.goal.Logoff? {
      ReachableLeaving(P, w);
      LogoutWas(P, tr, i, phase.goal.seed, key);
    } else if IsSecond(phase.goal) {
      SecondIs(P, tr, i);
    }
  }

  lemma LogoutWas(P: Params, tr: seq<Action>, i: nat, seed: Four, key: Key)
    requires P.Ok() && i < |tr| && tr[i].Send? && tr[i].packet == Logout(P.cfg, seed, key)
    requires LogoutSeeded(P, Worked(tr, i), i + 1, tr[i].packet, seed)
    ensures exists k: nat, j: nat :: LogoutSent(P, tr, k, j, i, seed, key)
  {
    hide Logout;
    var w := Worked(tr, i);
    var k: nat, j: nat :| SeededBy(P, w, i + 1, tr[i].packet, seed, k, j);
    assert w[i].Send? && forall x :: 0 <= x < i ==> w[x] == tr[x];
    assert j < i;
    assert LogoutSent(P, tr, k, j, i, seed, key);
  }

  /** A logout at a place of a trace. */
  predicate LogoutAt(tr: seq<Action>, i: nat) {
    i < |tr| && tr[i].Send? && IsLogout(tr[i].packet)
  }

  /** Every logout packet carries the seed of the server's answer to the challenge for it, and the key of its
      session. */
  lemma LogoutFollowsChallenge(P: Params, tr: seq<Action>, i: nat)
    requires P.Ok() && Safety.Accepts(P, tr) && LogoutAt(tr, i)
    ensures exists k: nat, j: nat, logoutSeed: Four, seed: Four, key: Key ::
              LogoutSent(P, tr, k, j, i, logoutSeed, key) && InSession(P, tr, i, seed, key)
  {
    hide Run, InSession, LogoutSent, SecondOf, IsFirstBeat, IsChallenge, Logout;
    SessionPackets(P, tr, i);
    var seed: Four, key: Key :| InSession(P, tr, i, seed, key) && OfSession(P, tr, i, seed, key);
    BeatShape(P, tr, i, seed, key);
    var k: nat, j: nat, logoutSeed: Four :| LogoutSent(P, tr, k, j, i, logoutSeed, key);
  }

  /** Every challenge for a login is one but for its random bytes. */
  lemma AsksAreChallenges(P: Params, tr: seq<Action>, i: nat)
    requires P.Ok() && Safety.Accepts(P, tr) && i < |tr| && tr[i].Send? && IsAsk(tr[i].packet)
    ensures IsChallenge(P, tr[i].packet, 0x02)
  {
    hide Run, Worked, IsChallenge, IsSecondFor, IsFirstBeat, Logout, CounterByte;
    WorkedWaits(P, tr, i);
    ReachableFits(P, Worked(tr, i));
  }

  lemma BeatShape(P: Params, tr: seq<Action>, i: nat, seed: Four, key: Key)
    requires P.Ok() && i < |tr| && tr[i].Send?
    ensures IsFirstBeat(P.cfg, tr[i].packet, seed, key) ==> tr[i].packet != [] && tr[i].packet[0] == 0xff
    ensures SecondOf(P, tr, i) ==> IsSecondBeat(tr[i].packet)
  {
    var packet := tr[i].packet;
    if IsFirstBeat(P.cfg, packet, seed, key) {
      BeatShapes(P.cfg, seed, key, packet[8..12], packet[36], packet[37]);
    }
    hide PlainBeat, BeatReply, Beat2;
  }

  /** Every packet of the second keepalive is determined by what happened before it. */
  lemma SecondBeats(P: Params, tr: seq<Action>, i: nat)
    requires P.Ok() && Safety.Accepts(P, tr) && i < |tr| && tr[i].Send? && IsSecondBeat(tr[i].packet)
    ensures SecondOf(P, tr, i)
  {
    hide Run, InSession, LogoutSent, SecondOf, IsFirstBeat, IsChallenge, Logout;
    SessionPackets(P, tr, i);
    var seed: Four, key: Key :| InSession(P, tr, i, seed, key) && OfSession(P, tr, i, seed, key);
    BeatShape(P, tr, i, seed, key);
  }
}
