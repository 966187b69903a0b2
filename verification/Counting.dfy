/** The counters of a session, told from the trace: keepalive rounds that failed in a row, keepalive exchanges,
    and the exchanges after so many rounds without a failure. */
module Counting {
  import opened Words
  import opened Text
  import opened Layout
  import opened RetryPolicy
  import opened Net
  import opened Beats
  import opened Session
  import opened Safety

  // ---- Failures in a row ----------------------------------------------------------------------

  /** The looks after one more action. */
  function PollsThen(polls: nat, a: Action): nat {
    if a.Sleep? || (a.Send? && IsLogin(a.packet)) then 0 else if a.Poll? then polls + 1 else polls
  }

  /** Each round starts with a look at the flag, and a good one ends with a sleep: the looks since the
      last sleep, or since the login, are the rounds that did not get there. */
  function PollsSince(tr: seq<Action>): nat {
    if tr == [] then 0
    else PollsThen(PollsSince(tr[..|tr| - 1]), tr[|tr| - 1])
  }

  ghost predicate FailuresCounted(polls: nat, phase: Phase) {
    match LinkOf(phase)
    case Some(link) =>
      && link.failing < RECONNECT_THRESHOLD
      && polls == if phase.Online? || phase.NoticeWait? then link.failing else link.failing + 1
    case None =>
      && (phase.LoginWait? ==> polls == 0)
      && (phase.Lost? ==> polls == RECONNECT_THRESHOLD)
  }

  lemma CountStep(P: Params, front: seq<Action>, polls: nat, m: Monitor, a: Action, n: Monitor)
    requires P.Ok() && Known(P, front, m.phase) && FailuresCounted(polls, m.phase) && Next(P, m, a) == Some(n)
    ensures FailuresCounted(PollsThen(polls, a), n.phase)
  {
    hide Next, FailuresCounted, Known;
    if a.Send? {
      CountSend(P, front, polls, m, a, n);
    } else {
      CountQuiet(P, polls, m, a, n);
    }
  }

  lemma CountQuiet(P: Params, polls: nat, m: Monitor, a: Action, n: Monitor)
    requires P.Ok() && FailuresCounted(polls, m.phase) && Next(P, m, a) == Some(n) && !a.Send?
    ensures FailuresCounted(PollsThen(polls, a), n.phase)
  {
    hide LoginOf, ReplyDelay, Matches, FourAt, KeyAt;
  }

  lemma CountSend(P: Params, front: seq<Action>, polls: nat, m: Monitor, a: Action, n: Monitor)
    requires P.Ok() && Known(P, front, m.phase) && FailuresCounted(polls, m.phase) && Next(P, m, a) == Some(n)
    requires a.Send?
    ensures FailuresCounted(PollsThen(polls, a), n.phase)
  {
    hide Opens, LoginOf, Answered, LoginSent, Holds, IsAsk, IsLogin;
    SendPhase(P, front, m, a, n);
    if !m.phase.ResendDue? && !m.phase.LoginDue? {
      OpensCounts(P, m, a.packet);
    }
  }

  /** Opening an exchange leaves the failures alone and counts the exchanges of the second keepalive. */
  lemma OpensCounts(P: Params, m: Monitor, packet: seq<byte>)
    requires P.Ok() && Opens(P, m, packet).Some?
    ensures var goal := Opens(P, m, packet).value.goal;
            LinkOfGoal(goal).Some? ==>
              && LinkOf(m.phase).Some? && !m.phase.Online? && !m.phase.NoticeWait?
              && (var before, after := LinkOf(m.phase).value, LinkOfGoal(goal).value;
                  && after.failing == before.failing && after.rounds == before.rounds
                  && (if goal.Beat? || goal.BeatSeed? then after.exchanges == before.exchanges && |packet| != 40
                      else |packet| == 40 && packet[0] == 0x07 && packet[1] == CounterByte(before.exchanges)
                           && after.exchanges == before.exchanges + 1
                           && (m.phase.ExtraDue? || m.phase.FirstDue? || m.phase.ThirdDue?)))
    ensures LinkOfGoal(Opens(P, m, packet).value.goal).None? ==> |packet| != 40
  {
    hide PlainBeat, BeatReply, Beat2, Challenge, Logout, CounterByte;
  }

  lemma {:induction false} ReachableCounted(P: Params, tr: seq<Action>)
    requires P.Ok() && Accepts(P, tr)
    ensures FailuresCounted(PollsSince(tr), Run(P, tr).value.phase)
  {
    if tr == [] {
    } else {
      hide Run, Next, FailuresCounted, Known, IsLogin;
      var front := tr[..|tr| - 1];
      LastStep(P, tr);
      Knows(P, front);
      ReachableCounted(P, front);
      CountStep(P, front, PollsSince(front), Run(P, front).value, tr[|tr| - 1], Run(P, tr).value);
    }
  }

  /** Between two rounds the failure counter is the number of rounds that failed in a row, and less than
      six; the session is given up exactly when six have failed in a row. */
  lemma FailingSuffix(P: Params, tr: seq<Action>)
    requires P.Ok() && Accepts(P, tr)
    ensures var phase := Run(P, tr).value.phase;
            && (phase.Online? ==> phase.link.failing == PollsSince(tr) < 6)
            && (phase.Lost? ==> PollsSince(tr) == 6)
  {
    hide Run;
    ReachableCounted(P, tr);
  }

  // ---- Keepalive exchanges --------------------------------------------------------------------

  /** A packet of the second keepalive. */
  predicate IsSecondBeat(packet: seq<byte>) {
    |packet| == 40 && packet[0] == 0x07
  }

  /** The last action begins an exchange of the second keepalive: it sends such a packet, and not because
      a receive just failed. */
  predicate Begins(tr: seq<Action>) {
    && tr != [] && tr[|tr| - 1].Send? && IsSecondBeat(tr[|tr| - 1].packet)
    && !(|tr| >= 2 && tr[|tr| - 2] == Receive(Failed))
  }

  /** The exchanges of the second keepalive begun since the last login. */
  function BeatsSince(tr: seq<Action>): nat {
    if tr == [] then 0
    else
      var front, a := tr[..|tr| - 1], tr[|tr| - 1];
      if a.Send? && IsLogin(a.packet) then 0
      else if Begins(tr) then BeatsSince(front) + 1
      else BeatsSince(front)
  }

  ghost predicate BeatsCounted(beats: nat, phase: Phase) {
    && (LinkOf(phase).Some? ==> LinkOf(phase).value.exchanges == beats)
    && (phase.LoginWait? ==> beats == 0)
  }

  lemma BeatStep(P: Params, front: seq<Action>, beats: nat, m: Monitor, a: Action, n: Monitor)
    requires P.Ok() && Known(P, front, m.phase) && PhaseFits(P, m.phase) && LastFits(front, m.phase)
    requires BeatsCounted(beats, m.phase) && Next(P, m, a) == Some(n)
    ensures BeatsCounted(if a.Send? && IsLogin(a.packet) then 0 else if Begins(front + [a]) then beats + 1 else beats,
                         n.phase)
    ensures Begins(front + [a]) ==> a.packet[1] == CounterByte(beats)
  {
    hide Next, Known, PhaseFits, CounterByte, IsLogin;
    if a.Send? {
      BeatSend(P, front, beats, m, a, n);
    } else {
      QuietStep(P, m, a, n);
    }
  }

  lemma QuietStep(P: Params, m: Monitor, a: Action, n: Monitor)
    requires P.Ok() && !a.Send? && Next(P, m, a) == Some(n)
    ensures LinkOf(n.phase).Some? ==>
              if m.phase.LoginWait? then LinkOf(n.phase).value.exchanges == 0
              else LinkOf(m.phase).Some? && LinkOf(n.phase).value.exchanges == LinkOf(m.phase).value.exchanges
    ensures n.phase.LoginWait? ==> m.phase.LoginWait?
  {
    hide Opens, LoginOf, ReplyDelay, Matches;
  }

  lemma BeatSend(P: Params, front: seq<Action>, beats: nat, m: Monitor, a: Action, n: Monitor)
    requires P.Ok() && Known(P, front, m.phase) && LastFits(front, m.phase) && a.Send?
    requires BeatsCounted(beats, m.phase) && Next(P, m, a) == Some(n)
    ensures BeatsCounted(if IsLogin(a.packet) then 0 else if Begins(front + [a]) then beats + 1 else beats, n.phase)
    ensures Begins(front + [a]) ==> a.packet[1] == CounterByte(beats)
  {
    hide Opens, LoginOf, Answered, LoginSent, Holds, IsAsk, CounterByte;
    SendPhase(P, front, m, a, n);
    if !m.phase.ResendDue? && !m.phase.LoginDue? {
      OpensCounts(P, m, a.packet);
    }
  }

  lemma {:induction false} ReachableBeats(P: Params, tr: seq<Action>)
    requires P.Ok() && Accepts(P, tr)
    ensures BeatsCounted(BeatsSince(tr), Run(P, tr).value.phase)
  {
    if tr == [] {
    } else {
      hide Run, Next, BeatsCounted, Known, PhaseFits, IsLogin, Begins;
      var front, a := tr[..|tr| - 1], tr[|tr| - 1];
      LastStep(P, tr);
      Knows(P, front);
      ReachableFits(P, front);
      ReachableLast(P, front);
      ReachableBeats(P, front);
      assert tr == front + [a];
      BeatStep(P, front, BeatsSince(front), Run(P, front).value, a, Run(P, tr).value);
    }
  }

  /** The n-th exchange of a session, failed ones included, carries n mod 255. */
  lemma BeatsAreNumbered(P: Params, tr: seq<Action>, i: nat)
    requires P.Ok() && Accepts(P, tr) && i < |tr| && Begins(tr[..i + 1])
    ensures tr[i].Send? && |tr[i].packet| == 40 && tr[i].packet[1] as nat == BeatsSince(tr[..i]) % 255
    ensures tr[i].packet[1] == CounterByte(BeatsSince(tr[..i]))
  {
    hide Run, Next, BeatsCounted, Known, PhaseFits, IsLogin;
    var front := tr[..i];
    PrefixRuns(P, tr, i);
    Knows(P, front);
    ReachableFits(P, front);
    ReachableLast(P, front);
    ReachableBeats(P, front);
    assert tr[..i + 1] == front + [tr[i]];
    BeatStep(P, front, BeatsSince(front), Run(P, front).value, tr[i], Run(P, tr[..i + 1]).value);
  }

  /** The counters of two exchanges that are less than 255 apart differ. */
  lemma CountersDiffer(m: nat, n: nat)
    requires m < n < m + 255
    ensures CounterByte(m) != CounterByte(n)
  {
    assert CounterByte(m) as nat == m % 255 && CounterByte(n) as nat == n % 255;
  }

  /** The goals of the second keepalive. */
  predicate IsSecond(goal: Goal) {
    goal.Extra? || goal.First? || goal.Third?
  }

  /** While the n-th exchange of a session is waiting, a datagram that echoes the counter of any of the
      254 exchanges before it is ignored: it changes nothing. */
  lemma StaleIsIgnored(P: Params, tr: seq<Action>, earlier: nat, got: Received)
    requires P.Ok() && Accepts(P, tr)
    requires var phase := Run(P, tr).value.phase; phase.Waiting? && IsSecond(phase.goal)
    requires got.Datagram? && |got.bytes| > 1 && got.bytes[1] == CounterByte(earlier)
    requires earlier + 1 < BeatsSince(tr) <= earlier + 255
    ensures Next(P, Run(P, tr).value, Receive(got)) == Some(Run(P, tr).value)
  {
    hide Run, CounterByte;
    ReachableBeats(P, tr);
    ReachableFits(P, tr);
    CountersDiffer(earlier, BeatsSince(tr) - 1);
  }

  // ---- The counter of a session without failures ----------------------------------------------

  function LooksThen(looks: nat, a: Action): nat {
    if a.Send? && IsLogin(a.packet) then 0 else if a.Poll? then looks + 1 else looks
  }

  function RoundsThen(rounds: nat, a: Action): nat {
    if a.Send? && IsLogin(a.packet) then 0 else if a == Sleep(20) then rounds + 1 else rounds
  }

  /** The looks at the stop flag since the last login: each round of a session begins with one. */
  function LooksSince(tr: seq<Action>): nat {
    if tr == [] then 0 else LooksThen(LooksSince(tr[..|tr| - 1]), tr[|tr| - 1])
  }

  /** The sleeps of twenty seconds since the last login: each good round of a session ends with one. */
  function RoundsSince(tr: seq<Action>): nat {
    if tr == [] then 0 else RoundsThen(RoundsSince(tr[..|tr| - 1]), tr[|tr| - 1])
  }

  function ExtraCount(P: Params, link: Link): nat {
    if ExtraOfRound(P.cfg.jluMode, link.rounds).NoExtra? then 0 else 1
  }

  /** The exchanges begun in the round under way. */
  function BegunInRound(P: Params, phase: Phase): nat {
    match phase
    case Waiting(Extra(_), _, _, _) => 1
    case ResendDue(Extra(_), _, _, _) => 1
    case FirstDue(link) => ExtraCount(P, link)
    case Waiting(First(link), _, _, _) => ExtraCount(P, link) + 1
    case ResendDue(First(link), _, _, _) => ExtraCount(P, link) + 1
    case ThirdDue(link, _) => ExtraCount(P, link) + 1
    case Waiting(Third(link), _, _, _) => ExtraCount(P, link) + 2
    case ResendDue(Third(link), _, _, _) => ExtraCount(P, link) + 2
    case RoundDone(link) => ExtraCount(P, link) + 2
    case _ => 0
  }

  /** The exchanges of the second keepalive begun since the last look at the stop flag. */
  function BeatsInRound(tr: seq<Action>): nat {
    if tr == [] then 0
    else
      var front := tr[..|tr| - 1];
      if tr[|tr| - 1].Poll? then 0 else if Begins(tr) then BeatsInRound(front) + 1 else BeatsInRound(front)
  }

  /** The phases of the extra packet. */
  predicate InExtra(phase: Phase) {
    phase.ExtraDue? || ((phase.Waiting? || phase.ResendDue?) && phase.goal.Extra?)
  }

  /** Each look begins a round and each sleep ends a good one; if all rounds so far were good, the counter is
      the one of that many rounds and of what the round under way has begun. */
  ghost predicate RoundsCounted(P: Params, looks: nat, rounds: nat, begun: nat, phase: Phase) {
    && (phase.LoginWait? ==> looks == 0 && rounds == 0)
    && (LinkOf(phase).Some? ==> LinkCounted(P, looks, rounds, begun, phase, LinkOf(phase).value))
  }

  ghost predicate LinkCounted(P: Params, looks: nat, rounds: nat, begun: nat, phase: Phase, link: Link) {
    var between := phase.Online? || phase.NoticeWait?;
    var ended := if between then looks else looks - 1;
    && rounds == link.rounds && rounds <= ended
    && (InExtra(phase) ==> ExtraCount(P, link) == 1)
    && (!between ==> begun == BegunInRound(P, phase))
    && (rounds == ended ==> link.exchanges == CounterAfter(P.cfg.jluMode, rounds) + BegunInRound(P, phase))
  }

  lemma RoundQuiet(P: Params, looks: nat, rounds: nat, begun: nat, m: Monitor, a: Action, n: Monitor)
    requires P.Ok() && RoundsCounted(P, looks, rounds, begun, m.phase) && Next(P, m, a) == Some(n) && !a.Send?
    ensures RoundsCounted(P, LooksThen(looks, a), RoundsThen(rounds, a), if a.Poll? then 0 else begun, n.phase)
  {
    hide Next, RoundsCounted, LooksThen, RoundsThen;
    if a.Receive? {
      RoundReceive(P, looks, rounds, begun, m, a, n);
    } else {
      RoundRest(P, looks, rounds, begun, m, a, n);
    }
  }

  lemma RoundReceive(P: Params, looks: nat, rounds: nat, begun: nat, m: Monitor, a: Action, n: Monitor)
    requires P.Ok() && RoundsCounted(P, looks, rounds, begun, m.phase) && Next(P, m, a) == Some(n) && a.Receive?
    ensures RoundsCounted(P, LooksThen(looks, a), RoundsThen(rounds, a), begun, n.phase)
  {
    hide LoginOf, ReplyDelay, Matches, FourAt, KeyAt, AddressesParse, ExtraOfRound;
    if m.phase.Waiting? {
      hide Opens, AfterLoginReply, CounterAfter;
    } else {
      hide PhaseAfter, Opens;
    }
  }

  lemma RoundRest(P: Params, looks: nat, rounds: nat, begun: nat, m: Monitor, a: Action, n: Monitor)
    requires P.Ok() && RoundsCounted(P, looks, rounds, begun, m.phase) && Next(P, m, a) == Some(n)
    requires !a.Send? && !a.Receive?
    ensures RoundsCounted(P, LooksThen(looks, a), RoundsThen(rounds, a), if a.Poll? then 0 else begun, n.phase)
  {
    hide LoginOf, ReplyDelay, Matches, AddressesParse, ExtraOfRound;
  }

  /** How the exchanges of a round follow its phases. */
  lemma OpensRound(P: Params, m: Monitor, packet: seq<byte>)
    requires P.Ok() && Opens(P, m, packet).Some?
    ensures var goal := Opens(P, m, packet).value.goal;
            && (goal.Extra? ==> m.phase.ExtraDue? && goal.link == Begun(m.phase.link))
            && (goal.First? ==> m.phase.FirstDue? && goal.link == Begun(m.phase.link))
            && (goal.Third? ==> m.phase.ThirdDue? && goal.link == Begun(m.phase.link))
            && (goal.Beat? ==> (m.phase.BeatDue? || m.phase.BeatReplyDue?) && goal.link == m.phase.link)
            && (goal.BeatSeed? ==> m.phase.BeatDue? && goal.link == m.phase.link)
            && (IsSecond(goal) <==> IsSecondBeat(packet))
  {
    OpensCounts(P, m, packet);
    hide PlainBeat, BeatReply, Beat2, Challenge, Logout, CounterByte;
  }

  lemma RoundSend(P: Params, front: seq<Action>, looks: nat, rounds: nat, begun: nat, m: Monitor, a: Action, n: Monitor)
    requires P.Ok() && Known(P, front, m.phase) && LastFits(front, m.phase)
    requires RoundsCounted(P, looks, rounds, begun, m.phase) && Next(P, m, a) == Some(n) && a.Send?
    ensures RoundsCounted(P, LooksThen(looks, a), RoundsThen(rounds, a),
                          if Begins(front + [a]) then begun + 1 else begun, n.phase)
  {
    hide Opens, LoginOf, Answered, LoginSent, Holds, IsAsk, IsLogin, ExtraOfRound, CounterAfter, IsSecondBeat;
    SendPhase(P, front, m, a, n);
    if !m.phase.ResendDue? && !m.phase.LoginDue? {
      OpensRound(P, m, a.packet);
    }
  }

  lemma RoundSnoc(front: seq<Action>, a: Action)
    ensures LooksSince(front + [a]) == LooksThen(LooksSince(front), a)
    ensures RoundsSince(front + [a]) == RoundsThen(RoundsSince(front), a)
    ensures BeatsInRound(front + [a]) == if a.Poll? then 0
                                         else if Begins(front + [a]) then BeatsInRound(front) + 1
                                         else BeatsInRound(front)
  {
    hide LooksThen, RoundsThen, Begins;
    assert (front + [a])[..|front|] == front;
  }

  lemma {:induction false} ReachableRounds(P: Params, tr: seq<Action>)
    requires P.Ok() && Accepts(P, tr)
    ensures RoundsCounted(P, LooksSince(tr), RoundsSince(tr), BeatsInRound(tr), Run(P, tr).value.phase)
  {
    if tr == [] {
    } else {
      hide Run, Next, RoundsCounted, Known, LooksSince, RoundsSince, LooksThen, RoundsThen, BeatsInRound, LastFits,
           IsSecondBeat;
      var front, a := tr[..|tr| - 1], tr[|tr| - 1];
      LastStep(P, tr);
      Knows(P, front);
      ReachableLast(P, front);
      ReachableRounds(P, front);
      assert tr == front + [a];
      RoundSnoc(front, a);
      var m, n := Run(P, front).value, Run(P, tr).value;
      if a.Send? {
        RoundSend(P, front, LooksSince(front), RoundsSince(front), BeatsInRound(front), m, a, n);
      } else {
        RoundQuiet(P, LooksSince(front), RoundsSince(front), BeatsInRound(front), m, a, n);
      }
    }
  }

  /** Between two rounds of a session in which no round failed, after k rounds, the exchanges begun since the
      login are 2k + ceil(k / 10) in JLU mode, and else 2k + 1 from the first round on; that is the counter. */
  lemma CounterOfRounds(P: Params, tr: seq<Action>)
    requires P.Ok() && Accepts(P, tr) && Run(P, tr).value.phase.Online?
    requires LooksSince(tr) == RoundsSince(tr)
    ensures var k, link := RoundsSince(tr), Run(P, tr).value.phase.link;
            && link.rounds == k && link.exchanges == BeatsSince(tr) == CounterAfter(P.cfg.jluMode, k)
            && BeatsSince(tr) == if P.cfg.jluMode then 2 * k + (k + 9) / 10 else if k == 0 then 0 else 2 * k + 1
  {
    hide Run, LooksSince, RoundsSince, BeatsSince, BeatsInRound;
    ReachableRounds(P, tr);
    ReachableBeats(P, tr);
    var k := RoundsSince(tr);
    CounterClosedForm(k);
    assert k == 0 ==> CounterAfter(P.cfg.jluMode, k) == 0;
  }
}
