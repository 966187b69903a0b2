/** Runs of the client that show what can happen: leaving an eternal loop without the stop flag, and coming to a
    login that is not defined. */
module Witnesses {
  import opened Text
  import opened Layout
  import opened Net
  import opened Beats
  import opened Session
  import opened Safety
  import opened LongPasswords
  import Runs

  // ---- Leaving without the flag ---------------------------------------------------------------

  /** Nothing arrives, the only send fails, and the flag is clear for three looks. */
  const SILENCE := Env([], [false], [], 0, 3)

  /** Where a run with fewer than two tries is, by what it has sent and how often it has looked. */
  ghost predicate InSilence(m: Monitor, sent: nat, polled: nat) {
    match m.phase
    case Booting => m.attempts == 0 && sent == 0 && polled == 0
    case Booted => m.attempts == 0 && sent == 0 && polled == 0
    case Top => (m.attempts == 0 && sent == 0 && polled == 1) || (m.attempts == 1 && polled == 3)
    case AskDue => m.attempts == 0 && sent == 0 && polled == 2
    case Unanswered => m.attempts == 1 && polled == 2
    case Delaying(_) => m.attempts == 1 && polled == 3
    case Closed => polled <= 3
    case _ => false
  }

  lemma SilenceStep(P: Params, m: Monitor, a: Action, n: Monitor, sent: nat, polled: nat)
    requires P.Ok() && P.eternal && P.tryTimes < 2 && InSilence(m, sent, polled) && Next(P, m, a) == Some(n)
    requires a.Send? ==> a.ok == SILENCE.SendWorks(sent)
    requires a.Poll? ==> a.stop == (polled >= SILENCE.patience)
    ensures InSilence(n, if a.Send? then sent + 1 else sent, if a.Poll? then polled + 1 else polled)
  {
    hide LoginOf, PlainBeat, BeatReply, Beat2, Challenge, Logout;
    assert !SILENCE.SendWorks(0);
  }

  lemma {:induction false} RunsInSilence(P: Params, tr: seq<Action>, taken: nat, sent: nat, polled: nat)
    requires P.Ok() && P.eternal && P.tryTimes < 2
    requires Safety.Accepts(P, tr) && Truthful(SILENCE, tr, taken, sent, polled)
    ensures InSilence(Run(P, tr).value, sent, polled)
  {
    hide Next, InSilence, Rolled;
    if tr == [] {
      StartSilence();
    } else {
      var front, a := tr[..|tr| - 1], tr[|tr| - 1];
      LastStep(P, tr);
      var sent', polled' := if a.Send? then sent - 1 else sent, if a.Poll? then polled - 1 else polled;
      RunsInSilence(P, front, if a.Receive? then taken - 1 else taken, sent', polled');
      SilenceStep(P, Run(P, front).value, a, Run(P, tr).value, sent', polled');
    }
  }

  lemma StartSilence()
    ensures InSilence(START, 0, 0)
  {
  }

  lemma SilenceEnds(m: Monitor, sent: nat, polled: nat)
    requires InSilence(m, sent, polled)
    ensures !m.phase.LoginDue? && polled <= 3
  {
  }

  /** An eternal client that makes fewer than two tries leaves without having seen the stop flag set. */
  method LeavesWithoutStop(P: Params) returns (result: Outcome, ghost tr: seq<Action>)
    requires P.Ok() && P.eternal && P.tryTimes < 2
    ensures result == Exit(1) && Safety.Accepts(P, tr) && Runs.ClosesLast(tr) && Poll(true) !in tr
  {
    hide Run, Truthful, InSilence, Runs.Lawful, LoginUndefined, CanGetStuck;
    ghost var taken, sent, polled;
    result, tr, taken, sent, polled := Runs.RunToEnd(P, SILENCE);
    RunsInSilence(P, tr, taken, sent, polled);
    SilenceEnds(Run(P, tr).value, sent, polled);
    StopSeen(SILENCE, tr, taken, sent, polled);
  }

  // ---- Coming to a login that is not defined --------------------------------------------------

  /** The server answers four challenges, whose random bytes are 0, and no login. */
  function Answering(server: Address): Env {
    var answer := Datagram(server, ANSWER);
    Env([answer, Failed, answer, Failed, answer, Failed, answer], [], [], 0, 8)
  }

  /** The logins that come before the one that is not defined. */
  function Before(P: Params): nat {
    if AlwaysRotated(P) then 0 else 3
  }

  /** Where a run is after so many logins, by what it has received and how often it has looked. */
  ghost predicate OnTheWay(P: Params, m: Monitor, taken: nat, polled: nat)
    requires P.Ok()
  {
    var n := m.fails;
    && n <= Before(P)
    && match m.phase
       case Booting => m.attempts == n == 0 && taken == 0 && polled == 0
       case Booted => m.attempts == n == 0 && taken == 0 && polled == 0
       case Top => m.attempts == n && taken == 2 * n && polled == 2 * n + 1
       case AskDue => m.attempts == n && taken == 2 * n && polled == 2 * n + 2
       case Waiting(goal, packet, pattern, failures) =>
         && goal.Ask? && packet == AskPacket(P) && pattern == AskPattern(packet)
         && m.attempts == n + 1 && taken == 2 * n && polled == 2 * n + 2
       case Seeded(_) => m.attempts == n + 1 && taken == 2 * n + 1 && polled == 2 * n + 2
       case LoginDue(_) => m.attempts == n + 1 && taken == 2 * n + 1 && polled == 2 * n + 2
       case LoginWait(_) => n < Before(P) && m.attempts == n + 1 && taken == 2 * n + 1 && polled == 2 * n + 2
       case Refused(_) => m.attempts == n && taken == 2 * n && polled == 2 * n
       case Delaying(_) => m.attempts == n && taken == 2 * n && polled == 2 * n + 1
       case _ => false
  }

  lemma WaySend(P: Params, front: seq<Action>, m: Monitor, a: Action, n: Monitor, taken: nat, polled: nat)
    requires P.Ok() && CanGetStuck(P) && OnTheWay(P, m, taken, polled) && Next(P, m, a) == Some(n) && a.Send? && a.ok
    requires LastFits(front, m.phase) && Rolled(Answering(P.server), front, a.packet)
    ensures OnTheWay(P, n, taken, polled)
  {
    hide LoginOf, AddressesParse, Used, Challenge;
    if m.phase.LoginDue? {
      LoginNeeds(P.cfg, m.phase.seed, Template(P, m), P.signed);
    } else {
      hide Opens;
      OpensShape(P, m, a.packet);
      OpensGoal(P, m, a.packet);
    }
  }

  lemma Arrivals(server: Address, n: nat)
    requires n <= 3
    ensures Answering(server).Arrival(2 * n) == Datagram(server, ANSWER)
    ensures n < 3 ==> Answering(server).Arrival(2 * n + 1) == Failed
  {
  }

  lemma WayReceive(P: Params, m: Monitor, a: Action, n: Monitor, taken: nat, polled: nat)
    requires P.Ok() && CanGetStuck(P) && OnTheWay(P, m, taken, polled) && Next(P, m, a) == Some(n)
    requires a.Receive? && a.got == Answering(P.server).Arrival(taken)
    ensures OnTheWay(P, n, taken + 1, polled)
  {
    hide AddressesParse, AskPacket, Matches, AskPattern, ReplyDelay;
    Arrivals(P.server, m.fails);
    AnswerAccepted(P);
    AskPacketIs(P);
  }

  lemma AskPacketIs(P: Params)
    requires P.Ok()
    ensures AskPacket(P) == Challenge(0x02, 0, 0, P.cfg.authVersion[0])
  {
  }

  lemma WayQuiet(P: Params, m: Monitor, a: Action, n: Monitor, taken: nat, polled: nat)
    requires P.Ok() && CanGetStuck(P) && OnTheWay(P, m, taken, polled) && Next(P, m, a) == Some(n)
    requires !a.Send? && !a.Receive? && (a.Poll? ==> a.stop == (polled >= Answering(P.server).patience))
    ensures OnTheWay(P, n, taken, if a.Poll? then polled + 1 else polled)
  {
    hide AddressesParse, AskPacket, AskPattern;
  }

  lemma StartsOnTheWay(P: Params)
    requires P.Ok()
    ensures OnTheWay(P, START, 0, 0)
  {
  }

  lemma {:induction false} RunsOnTheWay(P: Params, tr: seq<Action>, taken: nat, sent: nat, polled: nat)
    requires P.Ok() && CanGetStuck(P) && Safety.Accepts(P, tr) && Truthful(Answering(P.server), tr, taken, sent, polled)
    ensures OnTheWay(P, Run(P, tr).value, taken, polled)
  {
    hide Next, OnTheWay, Rolled, CanGetStuck, LastFits;
    if tr == [] {
      StartsOnTheWay(P);
    } else {
      var front, a := tr[..|tr| - 1], tr[|tr| - 1];
      LastStep(P, tr);
      ReachableLast(P, front);
      var m, n := Run(P, front).value, Run(P, tr).value;
      match a
      case Send(_, _, _) =>
        RunsOnTheWay(P, front, taken, sent - 1, polled);
        WaySend(P, front, m, a, n, taken, polled);
      case Receive(_) =>
        RunsOnTheWay(P, front, taken - 1, sent, polled);
        WayReceive(P, m, a, n, taken - 1, polled);
      case Poll(_) =>
        RunsOnTheWay(P, front, taken, sent, polled - 1);
        WayQuiet(P, m, a, n, taken, polled - 1);
      case _ =>
        RunsOnTheWay(P, front, taken, sent, polled);
        WayQuiet(P, m, a, n, taken, polled);
    }
  }

  lemma NotClosedOnTheWay(P: Params, m: Monitor, taken: nat, polled: nat)
    requires P.Ok() && OnTheWay(P, m, taken, polled)
    ensures m.phase != Closed
  {
    hide AskPacket, AskPattern;
  }

  /** In each configuration that allows it, a client comes to a login that is not defined; that no other does is a
      postcondition of every run. */
  method GetsStuck(P: Params) returns (result: Outcome, ghost tr: seq<Action>)
    requires P.Ok() && CanGetStuck(P)
    ensures result == Undefined && Safety.Accepts(P, tr) && Stuck(P, Run(P, tr).value)
  {
    hide Run, Truthful, OnTheWay, Runs.Lawful, LoginUndefined, CanGetStuck;
    ghost var taken, sent, polled;
    result, tr, taken, sent, polled := Runs.RunToEnd(P, Answering(P.server));
    RunsOnTheWay(P, tr, taken, sent, polled);
    NotClosedOnTheWay(P, Run(P, tr).value, taken, polled);
  }
}
