/** Further properties of every trace of the session automaton: sleeps, bounds and leaving. Where a law depends
    on how far the protocol has come, it names the automaton's phase. */
module RunLaws {
  import opened Words
  import opened Text
  import opened Layout
  import opened RetryPolicy
  import opened RetryAfter
  import opened Net
  import opened Beats
  import opened Session
  import opened Safety

  // ---- Sleeps ---------------------------------------------------------------------------------

  /** The delay that the attempt just made asks for: the one of the server's refusal, if the last thing
      received before the look at the flag was one; else a minute. */
  ghost function AttemptDelay(P: Params, tr: seq<Action>, i: nat): nat
    requires P.Ok() && i <= |tr|
  {
    if i >= 2 && IsRefusal(P, tr, i - 2) then ReplyDelay(tr[i - 2].got.bytes) else DEFAULT_DELAY
  }

  /** An accepted reply to the login packet that was sent last, with code 5. */
  ghost predicate IsRefusal(P: Params, tr: seq<Action>, j: nat)
    requires P.Ok() && j < |tr|
  {
    && tr[j].Receive? && Accepted(tr[j].got, P.server, LOGIN_PATTERN) && tr[j].got.bytes[0] == 0x05
    && exists l: nat :: l < j && tr[l].Send? && IsLogin(tr[l].packet) && NoSend(tr, l + 1, j)
  }

  lemma DelayingFrom(P: Params, m: Monitor, a: Action, n: Monitor)
    requires P.Ok() && Next(P, m, a) == Some(n) && n.phase.Delaying?
    ensures a == Poll(false)
    ensures m.phase == Refused(n.phase.delay) ||
            (n.phase.delay == DEFAULT_DELAY && (m.phase.Unanswered? || m.phase.LoginDue? || m.phase.Lost?))
  {
    hide Opens, LoginOf, ReplyDelay, Matches;
    if a.Send? && !m.phase.ResendDue? && !m.phase.LoginDue? {
      OpensShape(P, m, a.packet);
    }
  }

  lemma RefusedFrom(P: Params, m: Monitor, a: Action, n: Monitor)
    requires P.Ok() && Next(P, m, a) == Some(n) && n.phase.Refused?
    ensures m.phase.LoginWait? && a.Receive?
    ensures n.phase.delay == if Accepted(a.got, P.server, LOGIN_PATTERN) && a.got.bytes[0] == 0x05
                             then ReplyDelay(a.got.bytes) else DEFAULT_DELAY
  {
    hide Opens, LoginOf, ReplyDelay;
    if a.Send? && !m.phase.ResendDue? && !m.phase.LoginDue? {
      OpensShape(P, m, a.packet);
    }
  }

  /** The other ways into a delay do not come from a refusal. */
  lemma NoRefusalBefore(P: Params, m: Monitor, a: Action, n: Monitor)
    requires P.Ok() && PhaseFits(P, m.phase) && Next(P, m, a) == Some(n)
    requires n.phase.Unanswered? || n.phase.LoginDue? || n.phase.Lost?
    ensures a.Receive? && Accepted(a.got, P.server, LOGIN_PATTERN) ==> a.got.bytes[0] != 0x05
  {
    hide Opens, LoginOf, ReplyDelay, CounterByte;
  }

  lemma RefusalFrom(P: Params, tr: seq<Action>, j: nat, seed: Four)
    requires P.Ok() && j < |tr| && Known(P, tr[..j], LoginWait(seed))
    requires tr[j].Receive? && Accepted(tr[j].got, P.server, LOGIN_PATTERN) && tr[j].got.bytes[0] == 0x05
    ensures IsRefusal(P, tr, j)
  {
    hide LoginOf, Answered, TemplateAt;
    var front := tr[..j];
    var k: nat, j': nat, l: nat :| LoginSent(P, front, k, j', l, seed) && NoSend(front, l + 1, |front|);
    LoginShape(P.cfg, seed, TemplateAt(P, front, l), P.signed);
    assert tr[l].Send? && IsLogin(tr[l].packet) && NoSend(tr, l + 1, j);
  }

  /** A delay of the attempt loop. */
  lemma DelayIsOfAttempt(P: Params, tr: seq<Action>, i: nat)
    requires P.Ok() && Accepts(P, tr) && 0 < i <= |tr|
    requires Run(P, tr[..i]).Some? && Run(P, tr[..i]).value.phase.Delaying?
    ensures tr[i - 1] == Poll(false) && Run(P, tr[..i]).value.phase.delay == AttemptDelay(P, tr, i)
  {
    hide Run, Next, Known, PhaseFits, IsRefusal, ReplyDelay;
    PrefixRuns(P, tr, i - 1);
    var d, m := Run(P, tr[..i]).value, Run(P, tr[..i - 1]).value;
    DelayingFrom(P, m, tr[i - 1], d);
    StartIsBooting(P, tr);
    PrefixRuns(P, tr, i - 2);
    var b := Run(P, tr[..i - 2]).value;
    if m.phase.Refused? {
      RefusedFrom(P, b, tr[i - 2], m);
      if Accepted(tr[i - 2].got, P.server, LOGIN_PATTERN) && tr[i - 2].got.bytes[0] == 0x05 {
        Knows(P, tr[..i - 2]);
        RefusalFrom(P, tr, i - 2, b.phase.seed);
      } else {
        NotRefusal(P, tr, i - 2);
      }
    } else {
      ReachableFits(P, tr[..i - 2]);
      NoRefusalBefore(P, b, tr[i - 2], m);
      NotRefusal(P, tr, i - 2);
    }
  }

  lemma StartIsBooting(P: Params, tr: seq<Action>)
    requires P.Ok()
    ensures Run(P, tr[..0]) == Some(START)
  {
  }

  lemma NotRefusal(P: Params, tr: seq<Action>, j: nat)
    requires P.Ok() && j < |tr|
    requires tr[j].Receive? && Accepted(tr[j].got, P.server, LOGIN_PATTERN) ==> tr[j].got.bytes[0] != 0x05
    ensures !IsRefusal(P, tr, j)
  {
  }

  /** A sleep is the startup delay, the pause after a good round, or, right after a look at the flag, the
      delay of this attempt and of no earlier one; that delay is between 1 and 1800 seconds. */
  lemma SleepsAre(P: Params, tr: seq<Action>, i: nat)
    requires P.Ok() && Accepts(P, tr) && i < |tr| && tr[i].Sleep?
    ensures
      || (i == 0 && 0 < tr[i].seconds <= P.cfg.startupDelay)
      || (i > 0 && tr[i].seconds == 20 && tr[i - 1].Receive?)
      || (i > 0 && tr[i - 1] == Poll(false) && tr[i].seconds == AttemptDelay(P, tr, i) && 1 <= tr[i].seconds <= 1800)
  {
    hide Run, Next, ReplyDelay, IsRefusal;
    PrefixRuns(P, tr, i);
    var m := Run(P, tr[..i]).value;
    SleepFrom(P, m, tr[i], Run(P, tr[..i + 1]).value);
    StartIsBooting(P, tr);
    if i > 0 {
      PrefixRuns(P, tr, i - 1);
      BeforeSleep(P, Run(P, tr[..i - 1]).value, tr[i - 1], m);
      if m.phase.Delaying? {
        DelayIsOfAttempt(P, tr, i);
      }
    }
  }

  /** After a refusal a run sleeps for as long as that asks for. */
  lemma RefusalSleeps(P: Params, tr: seq<Action>, i: nat, c: nat)
    requires P.Ok() && Accepts(P, tr) && 2 <= i < |tr| && tr[i].Sleep? && tr[i - 1] == Poll(false)
    requires IsRefusal(P, tr, i - 2) && IsCooldown(tr[i - 2].got.bytes, c)
    ensures var r := tr[i - 2].got.bytes;
            tr[i].seconds == if |r| <= 4 || (|r| == 5 && r[4] == 0x03) then 3
                             else if r[4] == 0x15 && c > 0 then c
                             else 60
  {
    SleepsAre(P, tr, i);
    ReplyDelayIs(tr[i - 2].got.bytes);
    hide Run, ReplyDelay, IsRefusal, IsCooldown;
  }

  /** After any other attempt it sleeps for a minute. */
  lemma OtherSleeps(P: Params, tr: seq<Action>, i: nat)
    requires P.Ok() && Accepts(P, tr) && 0 < i < |tr| && tr[i].Sleep? && tr[i - 1] == Poll(false)
    requires i == 1 || !IsRefusal(P, tr, i - 2)
    ensures tr[i].seconds == 60
  {
    SleepsAre(P, tr, i);
    hide Run, ReplyDelay, IsRefusal;
  }

  lemma SleepFrom(P: Params, m: Monitor, a: Action, n: Monitor)
    requires P.Ok() && a.Sleep? && Next(P, m, a) == Some(n)
    ensures (m.phase.Booting? && 0 < a.seconds <= P.cfg.startupDelay) || m.phase == Delaying(a.seconds)
            || (m.phase.RoundDone? && a.seconds == 20)
  {
  }

  lemma BeforeSleep(P: Params, m: Monitor, a: Action, n: Monitor)
    requires P.Ok() && Next(P, m, a) == Some(n)
    ensures !n.phase.Booting? && (n.phase.RoundDone? ==> a.Receive?)
  {
    hide Opens, LoginOf, ReplyDelay, Matches;
    if a.Send? && !m.phase.ResendDue? && !m.phase.LoginDue? {
      OpensShape(P, m, a.packet);
    }
  }

  // ---- Bounds ---------------------------------------------------------------------------------

  /** The number of challenges for a login that were sent. */
  function AskCount(tr: seq<Action>): nat {
    if tr == [] then 0
    else
      var a := tr[|tr| - 1];
      AskCount(tr[..|tr| - 1]) + (if a.Send? && IsAsk(a.packet) then 1 else 0)
  }

  /** Four packets for each challenge, one less for each retransmission still to come. */
  ghost predicate AsksBounded(P: Params, count: nat, m: Monitor) {
    && (match m.phase
        case Waiting(Ask, _, _, f) => m.attempts > 0 && f <= 3 && count <= 4 * (m.attempts - 1) + f + 1
        case ResendDue(Ask, _, _, f) => m.attempts > 0 && f <= 3 && count <= 4 * (m.attempts - 1) + f
        case _ => count <= 4 * m.attempts)
    && (!P.eternal ==> m.attempts == 0 || m.attempts <= P.tryTimes)
    && (!P.eternal && m.phase.AskDue? ==> m.attempts < P.tryTimes)
  }

  lemma BoundStep(P: Params, front: seq<Action>, count: nat, m: Monitor, a: Action, n: Monitor)
    requires P.Ok() && Known(P, front, m.phase) && AsksBounded(P, count, m) && Next(P, m, a) == Some(n)
    ensures AsksBounded(P, count + (if a.Send? && IsAsk(a.packet) then 1 else 0), n)
  {
    hide Opens, LoginOf, ReplyDelay, Matches, Answered, LoginSent, Holds, IsAsk;
    if a.Send? {
      SendPhase(P, front, m, a, n);
      if !m.phase.ResendDue? && !m.phase.LoginDue? {
        OpensShape(P, m, a.packet);
        OpensGoal(P, m, a.packet);
      }
    }
  }

  lemma {:induction false} ReachableBounded(P: Params, tr: seq<Action>)
    requires P.Ok() && Accepts(P, tr)
    ensures AsksBounded(P, AskCount(tr), Run(P, tr).value)
  {
    if tr == [] {
    } else {
      hide Next, AsksBounded, Known, IsAsk;
      var front := tr[..|tr| - 1];
      LastStep(P, tr);
      Knows(P, front);
      ReachableBounded(P, front);
      BoundStep(P, front, AskCount(front), Run(P, front).value, tr[|tr| - 1], Run(P, tr).value);
    }
  }

  /** The last action begins a challenge for a login: it sends one, and not because a receive just failed. */
  predicate BeginsAsk(tr: seq<Action>) {
    && tr != [] && tr[|tr| - 1].Send? && IsAsk(tr[|tr| - 1].packet)
    && !(|tr| >= 2 && tr[|tr| - 2] == Receive(Failed))
  }

  /** The number of challenges begun. */
  function AsksBegun(tr: seq<Action>): nat {
    if tr == [] then 0 else AsksBegun(tr[..|tr| - 1]) + (if BeginsAsk(tr) then 1 else 0)
  }

  lemma BegunStep(P: Params, front: seq<Action>, m: Monitor, a: Action, n: Monitor)
    requires P.Ok() && Known(P, front, m.phase) && LastFits(front, m.phase) && Next(P, m, a) == Some(n)
    ensures n.attempts == m.attempts + (if BeginsAsk(front + [a]) then 1 else 0)
  {
    hide Opens, LoginOf, ReplyDelay, Matches, Answered, LoginSent, Holds, IsAsk, AddressesParse;
    if a.Send? {
      SendPhase(P, front, m, a, n);
      if !m.phase.ResendDue? && !m.phase.LoginDue? {
        OpensShape(P, m, a.packet);
        OpensGoal(P, m, a.packet);
      }
    }
  }

  /** The attempts that the client counts are the challenges begun. */
  lemma {:induction false} ReachableBegun(P: Params, tr: seq<Action>)
    requires P.Ok() && Accepts(P, tr)
    ensures AsksBegun(tr) == Run(P, tr).value.attempts
  {
    hide Next, Known, BeginsAsk, LastFits;
    if tr != [] {
      var front, a := tr[..|tr| - 1], tr[|tr| - 1];
      assert tr == front + [a];
      BegunLast(P, front, a, tr);
      ReachableBegun(P, front);
    }
  }

  lemma BegunLast(P: Params, front: seq<Action>, a: Action, tr: seq<Action>)
    requires P.Ok() && Accepts(P, tr) && tr == front + [a]
    ensures Accepts(P, front)
    ensures Run(P, tr).value.attempts == Run(P, front).value.attempts + (if BeginsAsk(tr) then 1 else 0)
  {
    hide Next, Known, BeginsAsk, LastFits, Run;
    LastStep(P, tr);
    assert tr[..|tr| - 1] == front;
    Knows(P, front);
    ReachableLast(P, front);
    BegunStep(P, front, Run(P, front).value, a, Run(P, tr).value);
  }

  /** A run that is not eternal begins at most tryTimes challenges, and sends at most four packets for each. */
  lemma AsksAreBounded(P: Params, tr: seq<Action>)
    requires P.Ok() && Accepts(P, tr) && !P.eternal
    ensures AsksBegun(tr) <= if P.tryTimes > 0 then P.tryTimes else 0
    ensures AskCount(tr) <= if P.tryTimes > 0 then 4 * P.tryTimes else 0
  {
    hide Run;
    ReachableBounded(P, tr);
    ReachableBegun(P, tr);
  }

  // ---- Leaving --------------------------------------------------------------------------------

  /** Phases between the exchanges of a session. */
  predicate BetweenRounds(phase: Phase) {
    phase.Online? || phase.Lost?
  }

  /** After the flag was seen set, a session starts with a challenge for a logout; everything else closes. */
  lemma StopLeads(P: Params, tr: seq<Action>, i: nat)
    requires P.Ok() && Accepts(P, tr) && i + 1 < |tr| && tr[i] == Poll(true) && Run(P, tr[..i]).Some?
    ensures if BetweenRounds(Run(P, tr[..i]).value.phase) then tr[i + 1].Send? && IsLogoutAsk(tr[i + 1].packet)
            else tr[i + 1] == Close
  {
    hide Run, Next;
    PrefixRuns(P, tr, i);
    PrefixRuns(P, tr, i + 1);
    var m, n := Run(P, tr[..i]).value, Run(P, tr[..i + 1]).value;
    StopFrom(P, m, n);
    AfterStop(P, n, tr[i + 1], Run(P, tr[..i + 2]).value);
  }

  lemma StopFrom(P: Params, m: Monitor, n: Monitor)
    requires P.Ok() && Next(P, m, Poll(true)) == Some(n)
    ensures if BetweenRounds(m.phase) then n.phase.LogoutAskDue? else n.phase.Exiting?
  {
    hide LoginOf;
  }

  lemma AfterStop(P: Params, m: Monitor, a: Action, n: Monitor)
    requires P.Ok() && Next(P, m, a) == Some(n)
    ensures m.phase.Exiting? ==> a == Close && n.phase.Closed?
    ensures m.phase.LogoutAskDue? ==>
              && a.Send? && IsLogoutAsk(a.packet)
              && (n.phase.Exiting? || (n.phase.Waiting? && n.phase.goal.LogoutAsk? && n.phase.packet == a.packet))
  {
    hide LoginOf, Opens;
    if a.Send? && (m.phase.LogoutAskDue? || m.phase.Exiting?) && Opens(P, m, a.packet).Some? {
      OpensShape(P, m, a.packet);
      OpensLeave(P, m, a.packet);
    }
  }

  lemma OpensLeave(P: Params, m: Monitor, packet: seq<byte>)
    requires P.Ok() && Opens(P, m, packet).Some?
    ensures m.phase.LogoutAskDue? <==> Opens(P, m, packet).value.goal.LogoutAsk?
    ensures m.phase.LogoffDue? <==> Opens(P, m, packet).value.goal.Logoff?
    ensures !m.phase.Exiting? && !m.phase.Closed? && !m.phase.Waiting?
  {
    hide PlainBeat, BeatReply, Beat2, Challenge, Logout;
  }

  /** Between two places the server's answer to this challenge arrived. */
  ghost predicate AnsweredIn(P: Params, tr: seq<Action>, from: nat, end: nat, ask: seq<byte>)
    requires |ask| == 20
  {
    exists j: nat :: from <= j < end && j < |tr| && tr[j].Receive? && Accepted(tr[j].got, P.server, AskPattern(ask))
  }

  /** Between two places a logout packet was sent. */
  ghost predicate LogoutIn(tr: seq<Action>, from: nat, end: nat) {
    exists x: nat :: from <= x < end && x < |tr| && tr[x].Send? && IsLogout(tr[x].packet)
  }

  /** The way out of a session, after the challenge for a logout was sent. */
  ghost predicate Leaving(phase: Phase, ask: seq<byte>, answered: bool, logout: bool)
    requires |ask| == 20
  {
    match phase
    case Waiting(LogoutAsk(_), packet, pattern, _) =>
      packet == ask && pattern == AskPattern(ask) && !answered && !logout
    case ResendDue(LogoutAsk(_), packet, pattern, _) =>
      packet == ask && pattern == AskPattern(ask) && !answered && !logout
    case LogoffDue(_, _) => answered && !logout
    case Waiting(Logoff(_, _), _, _, _) => answered && logout
    case ResendDue(Logoff(_, _), _, _, _) => answered && logout
    case Exiting => answered == logout
    case Closed => answered == logout
    case _ => false
  }

  lemma LeavingStep(P: Params, m: Monitor, a: Action, n: Monitor, ask: seq<byte>, answered: bool, logout: bool)
    requires P.Ok() && PhaseFits(P, m.phase) && Next(P, m, a) == Some(n)
    requires IsLogoutAsk(ask) && Leaving(m.phase, ask, answered, logout)
    ensures Leaving(n.phase, ask, answered || (a.Receive? && Accepted(a.got, P.server, AskPattern(ask))),
                    logout || (a.Send? && IsLogout(a.packet)))
  {
    hide LoginOf, Opens, AskPattern, Matches, Logout, ReplyDelay;
    if a.Send? && !m.phase.ResendDue? && Opens(P, m, a.packet).Some? {
      OpensShape(P, m, a.packet);
      OpensLeave(P, m, a.packet);
    }
  }

  lemma {:induction false} LeavesSo(P: Params, tr: seq<Action>, i: nat, t: nat)
    requires P.Ok() && Accepts(P, tr) && i + 1 < t <= |tr| && tr[i] == Poll(true)
    requires Run(P, tr[..i]).Some? && BetweenRounds(Run(P, tr[..i]).value.phase)
    ensures tr[i + 1].Send? && IsLogoutAsk(tr[i + 1].packet) && Run(P, tr[..t]).Some?
    ensures Leaving(Run(P, tr[..t]).value.phase, tr[i + 1].packet, AnsweredIn(P, tr, i, t, tr[i + 1].packet),
                    LogoutIn(tr, i, t))
  {
    hide Run, Next, PhaseFits, Leaving, AskPattern, Accepted;
    StopLeads(P, tr, i);
    PrefixRuns(P, tr, t);
    PrefixRuns(P, tr, t - 1);
    var ask := tr[i + 1].packet;
    if t == i + 2 {
      PrefixRuns(P, tr, i);
      StopFrom(P, Run(P, tr[..i]).value, Run(P, tr[..i + 1]).value);
      assert tr[..t - 1] == tr[..i + 1];
      FirstLeaving(P, Run(P, tr[..i + 1]).value, tr[i + 1], Run(P, tr[..t]).value);
      assert !AnsweredIn(P, tr, i, t, ask) && !LogoutIn(tr, i, t);
    } else {
      LeavesSo(P, tr, i, t - 1);
      ReachableFits(P, tr[..t - 1]);
      var a := tr[t - 1];
      LeavingStep(P, Run(P, tr[..t - 1]).value, a, Run(P, tr[..t]).value, ask,
                  AnsweredIn(P, tr, i, t - 1, ask), LogoutIn(tr, i, t - 1));
      MoreSeen(P, tr, i, t - 1, ask);
    }
  }

  lemma FirstLeaving(P: Params, m: Monitor, a: Action, n: Monitor)
    requires P.Ok() && m.phase.LogoutAskDue? && Next(P, m, a) == Some(n)
    ensures a.Send? && IsLogoutAsk(a.packet) && Leaving(n.phase, a.packet, false, false)
  {
    hide LoginOf, Opens, AskPattern;
    if a.Send? {
      OpensShape(P, m, a.packet);
      OpensLeave(P, m, a.packet);
    }
  }

  lemma MoreSeen(P: Params, tr: seq<Action>, from: nat, end: nat, ask: seq<byte>)
    requires from <= end < |tr| && |ask| == 20
    ensures AnsweredIn(P, tr, from, end + 1, ask) <==>
            AnsweredIn(P, tr, from, end, ask) || (tr[end].Receive? && Accepted(tr[end].got, P.server, AskPattern(ask)))
    ensures LogoutIn(tr, from, end + 1) <==> LogoutIn(tr, from, end) || (tr[end].Send? && IsLogout(tr[end].packet))
  {
    hide Accepted, AskPattern;
  }

  /** A run that ends after a session saw the flag set has sent a challenge for a logout at once, and a
      logout packet exactly if the server answered that challenge. */
  lemma LogoutIffAnswered(P: Params, tr: seq<Action>, i: nat)
    requires P.Ok() && Accepts(P, tr) && tr != [] && tr[|tr| - 1] == Close
    requires i < |tr| && tr[i] == Poll(true) && Run(P, tr[..i]).Some? && BetweenRounds(Run(P, tr[..i]).value.phase)
    ensures i + 2 < |tr| && tr[i + 1].Send? && IsLogoutAsk(tr[i + 1].packet)
    ensures LogoutIn(tr, i, |tr|) <==> AnsweredIn(P, tr, i, |tr|, tr[i + 1].packet)
  {
    hide Run, Next, Leaving, AskPattern, Accepted;
    StopStarts(P, tr, i);
    LeavesSo(P, tr, i, |tr|);
    ClosedOnce(P, tr);
    assert tr[..|tr|] == tr;
    LeavingClosed(tr[i + 1].packet, AnsweredIn(P, tr, i, |tr|, tr[i + 1].packet), LogoutIn(tr, i, |tr|));
  }

  /** The run does not end with a look at the flag. */
  lemma StopStarts(P: Params, tr: seq<Action>, i: nat)
    requires P.Ok() && Accepts(P, tr) && tr != [] && tr[|tr| - 1] == Close
    requires i < |tr| && tr[i] == Poll(true) && Run(P, tr[..i]).Some? && BetweenRounds(Run(P, tr[..i]).value.phase)
    ensures i + 2 < |tr|
  {
    hide Run, Next;
    StopLeads(P, tr, i);
  }

  lemma LeavingClosed(ask: seq<byte>, answered: bool, logout: bool)
    requires |ask| == 20 && Leaving(Closed, ask, answered, logout)
    ensures answered == logout
  {
  }

  /** The phases that only a set flag leads to. */
  predicate Stopping(phase: Phase) {
    match phase
    case Exiting => true
    case LogoutAskDue(_) => true
    case LogoffDue(_, _) => true
    case Waiting(goal, _, _, _) => goal.LogoutAsk? || goal.Logoff?
    case ResendDue(goal, _, _, _) => goal.LogoutAsk? || goal.Logoff?
    case _ => false
  }

  lemma StoppingFrom(P: Params, m: Monitor, a: Action, n: Monitor)
    requires P.Ok() && Next(P, m, a) == Some(n)
    ensures Stopping(n.phase) ==> Stopping(m.phase) || a == Poll(true)
    ensures n.phase.Closed? ==> Stopping(m.phase) || (m.phase.Top? && !More(P, m.attempts))
  {
    hide LoginOf, Opens, ReplyDelay, Matches;
    if a.Send? && !m.phase.ResendDue? && !m.phase.LoginDue? {
      OpensShape(P, m, a.packet);
      OpensLeave(P, m, a.packet);
    }
  }

  /** The attempt loop never ends by its count. */
  ghost predicate Endless(P: Params) {
    forall n: nat :: More(P, n)
  }

  lemma ClosingFrom(P: Params, m: Monitor, a: Action, n: Monitor)
    requires P.Ok() && Next(P, m, a) == Some(n)
    ensures Stopping(n.phase) || (n.phase.Closed? && Endless(P)) ==> Stopping(m.phase) || a == Poll(true)
  {
    hide Next, More, Stopping;
    StoppingFrom(P, m, a, n);
  }

  lemma StartsUnstopped()
    ensures !Stopping(START.phase) && !START.phase.Closed?
  {
  }

  lemma {:induction false} StoppedByFlag(P: Params, tr: seq<Action>)
    requires P.Ok() && Accepts(P, tr)
    ensures Stopping(Run(P, tr).value.phase) ==> Poll(true) in tr
    ensures Run(P, tr).value.phase.Closed? && Endless(P) ==> Poll(true) in tr
  {
    StartsUnstopped();
    hide Next, Endless, Stopping;
    if tr == [] {
    } else {
      hide Run;
      var front := tr[..|tr| - 1];
      LastStep(P, tr);
      StoppedByFlag(P, front);
      ClosingFrom(P, Run(P, front).value, tr[|tr| - 1], Run(P, tr).value);
      assert tr == front + [tr[|tr| - 1]];
    }
  }

  /** An eternal run that makes at least two tries leaves only because it saw the flag set; with fewer
      tries there is a run that leaves without it. */
  lemma EternalLeavesOnStop(P: Params)
    requires P.Ok() && P.eternal
    ensures P.tryTimes >= 2 <==>
            forall tr: seq<Action> :: Accepts(P, tr) && tr != [] && tr[|tr| - 1] == Close ==> Poll(true) in tr
  {
    if P.tryTimes >= 2 {
      forall tr: seq<Action> | Accepts(P, tr) && tr != [] && tr[|tr| - 1] == Close
        ensures Poll(true) in tr
      {
        hide Run, Next;
        ClosedOnce(P, tr);
        StoppedByFlag(P, tr);
      }
    } else {
      var tr := EndsWithoutStop(P);
    }
  }

  /** One failed attempt, and the loop is over. */
  lemma EndsWithoutStop(P: Params) returns (tr: seq<Action>)
    requires P.Ok() && P.tryTimes < 2
    ensures Accepts(P, tr) && tr != [] && tr[|tr| - 1] == Close && Poll(true) !in tr
  {
    var start := [Poll(false)];
    RunsOn(P, [], START, Poll(false));
    assert [] + [Poll(false)] == start;
    if P.tryTimes <= 0 {
      tr := start + [Close];
      RunsOn(P, start, Monitor(Top, 0, 0), Close);
    } else {
      var packet := Challenge(0x02, 0, 0, P.cfg.authVersion[0]);
      ChallengeShape(0x02, 0, 0, P.cfg.authVersion[0]);
      hide Challenge;
      var t1 := start + [Poll(false)];
      RunsOn(P, start, Monitor(Top, 0, 0), Poll(false));
      var t2 := t1 + [Send(P.server, packet, false)];
      RunsOn(P, t1, Monitor(AskDue, 0, 0), Send(P.server, packet, false));
      var t3 := t2 + [Poll(false)];
      RunsOn(P, t2, Monitor(Unanswered, 1, 0), Poll(false));
      var t4 := t3 + [Sleep(DEFAULT_DELAY)];
      RunsOn(P, t3, Monitor(Delaying(DEFAULT_DELAY), 1, 0), Sleep(DEFAULT_DELAY));
      tr := t4 + [Close];
      RunsOn(P, t4, Monitor(Top, 1, 0), Close);
    }
  }

  lemma RunsOn(P: Params, tr: seq<Action>, m: Monitor, a: Action)
    requires P.Ok() && Run(P, tr) == Some(m)
    ensures Run(P, tr + [a]) == Next(P, m, a)
  {
    hide Next;
    assert (tr + [a])[..|tr + [a]| - 1] == tr;
  }
}
