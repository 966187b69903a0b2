/** Every run of the client, whatever the network and the stop flag do, ends and keeps the laws of the
    session. */
module Runs {
  import opened Net
  import opened Session
  import opened Safety
  import opened RunLaws
  import opened Templates
  import opened Echoes
  import opened SessionLaws
  import opened Layout
  import Client
  import LongPasswords

  /** The last action closes the socket, and no other does. */
  ghost predicate ClosesLast(tr: seq<Action>) {
    tr != [] && tr[|tr| - 1] == Close && OneClose(tr)
  }

  /** Nothing happens after the socket is closed. */
  ghost predicate OneClose(tr: seq<Action>) {
    forall i :: 0 <= i < |tr| && tr[i] == Close ==> i == |tr| - 1
  }

  /** Each login goes out right after the server's answer to a challenge, with the seed of that answer and in the
      template of its place among the logins since the last accepted one. */
  ghost predicate LoginsFollowChallenges(P: Params, tr: seq<Action>)
    requires P.Ok()
  {
    forall i: nat :: LoginAt(tr, i) ==> exists k: nat, j: nat, seed: Four :: LoginSent(P, tr, k, j, i, seed)
  }

  /** Each challenge for a login is one. */
  ghost predicate AsksAsk(P: Params, tr: seq<Action>)
    requires P.Ok()
  {
    forall i: nat :: i < |tr| && tr[i].Send? && IsAsk(tr[i].packet) ==> IsChallenge(P, tr[i].packet, 0x02)
  }

  /** Each other packet belongs to a session that the server has accepted. */
  ghost predicate PacketsBelong(P: Params, tr: seq<Action>)
    requires P.Ok()
  {
    forall i: nat :: i < |tr| && tr[i].Send? && !IsAsk(tr[i].packet) && !IsLogin(tr[i].packet) ==>
      exists seed: Four, key: Key :: InSession(P, tr, i, seed, key) && OfSession(P, tr, i, seed, key)
  }

  /** Answers to keepalive seeds and packets of type 3 repeat what the server sent. */
  ghost predicate BeatsCopied(P: Params, tr: seq<Action>) {
    forall i: nat :: i < |tr| && tr[i].Send? ==>
      && (IsBeatReply(tr[i].packet) ==> EchoesSeed(P, tr[..i + 1], i + 1, tr[i].packet))
      && (IsSecondOf(tr[i].packet, 0x03) ==> EchoesTail(P, tr[..i + 1], i + 1, tr[i].packet))
  }

  /** No sleep is longer than half an hour or the startup delay, and none takes no time. */
  ghost predicate SleepsBounded(P: Params, tr: seq<Action>)
    requires P.Ok()
  {
    forall i: nat :: i < |tr| && tr[i].Sleep? ==>
      0 < tr[i].seconds && (tr[i].seconds <= 1800 || (i == 0 && tr[i].seconds <= P.cfg.startupDelay))
  }

  /** A finite number of tries is kept to. */
  ghost predicate TriesKept(P: Params, tr: seq<Action>) {
    !P.eternal ==> AsksBegun(tr) <= if P.tryTimes > 0 then P.tryTimes else 0
  }

  ghost predicate Lawful(P: Params, tr: seq<Action>)
    requires P.Ok()
  {
    && OneClose(tr) && AsksAsk(P, tr) && LoginsFollowChallenges(P, tr) && PacketsBelong(P, tr) && BeatsCopied(P, tr)
    && SleepsBounded(P, tr) && TriesKept(P, tr)
  }

  /** The laws of all traces, finished or not. */
  lemma AcceptedIsLawful(P: Params, tr: seq<Action>)
    requires P.Ok() && Safety.Accepts(P, tr)
    ensures Lawful(P, tr)
  {
    hide Run, LoginSent, InSession, OfSession, AttemptDelay, AskCount, AsksBegun, IsAsk, IsLogin, EchoesSeed,
         EchoesTail, IsChallenge;
    ClosedOnce(P, tr);
    forall i: nat | LoginAt(tr, i)
      ensures exists k: nat, j: nat, seed: Four :: LoginSent(P, tr, k, j, i, seed)
    {
      LoginFollowsChallenge(P, tr, i);
    }
    forall i: nat | i < |tr| && tr[i].Send? && IsAsk(tr[i].packet)
      ensures IsChallenge(P, tr[i].packet, 0x02)
    {
      AsksAreChallenges(P, tr, i);
    }
    forall i: nat | i < |tr| && tr[i].Send? && !IsAsk(tr[i].packet) && !IsLogin(tr[i].packet)
      ensures exists seed: Four, key: Key :: InSession(P, tr, i, seed, key) && OfSession(P, tr, i, seed, key)
    {
      SessionPackets(P, tr, i);
    }
    forall i: nat | i < |tr| && tr[i].Send?
      ensures IsBeatReply(tr[i].packet) ==> EchoesSeed(P, tr[..i + 1], i + 1, tr[i].packet)
      ensures IsSecondOf(tr[i].packet, 0x03) ==> EchoesTail(P, tr[..i + 1], i + 1, tr[i].packet)
    {
      BeatsEcho(P, tr, i);
    }
    forall i: nat | i < |tr| && tr[i].Sleep?
      ensures 0 < tr[i].seconds && (tr[i].seconds <= 1800 || (i == 0 && tr[i].seconds <= P.cfg.startupDelay))
    {
      SleepsAre(P, tr, i);
    }
    if !P.eternal {
      AsksAreBounded(P, tr);
    }
  }

  /** And the laws of how a run ends. */
  lemma ClosedIsEnded(P: Params, tr: seq<Action>)
    requires P.Ok() && Safety.Accepts(P, tr) && Run(P, tr).value.phase == Closed
    ensures ClosesLast(tr)
    ensures P.eternal && P.tryTimes >= 2 ==> Poll(true) in tr
  {
    hide Run;
    ClosedOnce(P, tr);
    if P.eternal {
      EternalLeavesOnStop(P);
    }
  }

  /** A client on a fresh socket, run to its end. The trace is what happened between it and the environment, and
      one of the protocol, so that all laws of traces apply to it; before its first look at the flag the run sleeps
      if the host came up too recently. The run closes the socket, and the result
      tells whether it saw the stop flag set; or it comes to a login that is not defined, which takes a
      configuration that allows it. */
  method RunToEnd(params: Params, env: Env)
    returns (result: Outcome, ghost trace: seq<Action>, ghost taken: nat, ghost sent: nat, ghost polled: nat)
    requires params.Ok()
    ensures match result
            case Exit(code) => code == (if Poll(true) in trace then 0 else 1) && ClosesLast(trace)
            case Undefined => LongPasswords.CanGetStuck(params) && Poll(true) !in trace
    ensures result.Exit? && params.eternal && params.tryTimes >= 2 ==> result.code == 0
    ensures Safety.Accepts(params, trace)
    ensures result.Exit? <==> Run(params, trace).value.phase == Closed
    ensures result.Undefined? <==> Stuck(params, Run(params, trace).value)
    ensures Lawful(params, trace) && Truthful(env, trace, taken, sent, polled)
    ensures var delay, look := params.cfg.startupDelay, Poll(env.patience == 0);
            (if 0 < env.uptime < delay then [Sleep(delay - env.uptime), look] else [look]) <= trace
  {
    hide Lawful, Run, Truthful, LongPasswords.CanGetStuck, LoginUndefined, ClosesLast;
    var client := new Client.Client(params, env);
    result := client.Dogcom();
    trace, taken, sent, polled := client.trace, client.taken, client.sent, client.polled;
    StopSeen(env, trace, taken, sent, polled);
    AcceptedIsLawful(params, trace);
    if result.Exit? {
      ClosedIsEnded(params, trace);
    } else {
      LongPasswords.StuckNeeds(params, trace);
    }
  }
}
