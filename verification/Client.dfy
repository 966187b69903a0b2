/** The dhcp branch of auth.c and keepalive.c. Every action goes through the primitives at the start of
    the class, which record it; the session automaton has to allow each of them. */
module Client {
  import opened Words
  import opened Text
  import opened Layout
  import opened Protocol
  import opened RetryPolicy
  import opened RetryAfter
  import opened Net
  import opened Beats
  import opened Session

  class Client {
    const params: Params
    const env: Env
    /** Arrivals taken, sends made, looks at the stop flag and random bytes drawn so far. */
    var taken: nat
    var sent: nat
    var polled: nat
    var drawn: nat
    /** login_retry_delay_seconds. */
    var retryDelay: int
    ghost var trace: seq<Action>
    ghost var monitor: Monitor

    /** The trace is one of the protocol, and tells the truth. */
    ghost predicate Sound()
      reads this`trace, this`monitor, this`taken, this`sent, this`polled
    {
      params.Ok() && Run(params, trace) == Some(monitor) && Truthful(env, trace, taken, sent, polled)
    }

    /** And all random bytes drawn went out. */
    ghost predicate Valid()
      reads this`trace, this`monitor, this`taken, this`sent, this`polled, this`drawn
    {
      Sound() && drawn == Used(trace)
    }

    /** The random bytes that this packet needs have just been drawn, and are in it. */
    ghost predicate Ready(packet: seq<byte>)
      reads this`trace, this`monitor, this`taken, this`sent, this`polled, this`drawn
    {
      && Sound() && drawn == Used(trace) + (if Rolls(trace, packet) then 2 else 0)
      && Rolled(env, trace, packet)
    }

    constructor (params: Params, env: Env)
      requires params.Ok()
      ensures Valid() && this.params == params && this.env == env
      ensures taken == sent == polled == 0 && trace == [] && monitor == START
    {
      this.params, this.env := params, env;
      taken, sent, polled, drawn, retryDelay := 0, 0, 0, 0, DEFAULT_DELAY;
      trace, monitor := [], START;
    }

    // ---- Primitives ---------------------------------------------------------------------------

    /** The counters are already those after the action. */
    ghost method Record(a: Action)
      requires params.Ok() && Run(params, trace) == Some(monitor) && Next(params, monitor, a).Some?
      requires Truthful(env, trace + [a], taken, sent, polled)
      modifies this`trace, this`monitor
      ensures Sound() && trace == old(trace) + [a] && Some(monitor) == Next(params, old(monitor), a)
      ensures Used(trace) == Used(old(trace)) + (if a.Send? && Rolls(old(trace), a.packet) then 2 else 0)
    {
      hide Next, Truthful, Used, Rolls;
      UsedStep(trace, a);
      var before := trace;
      trace := trace + [a];
      assert trace[..|trace| - 1] == before;
      monitor := Next(params, monitor, a).value;
    }

    method SendTo(packet: seq<byte>) returns (ok: bool)
      requires Ready(packet)
      requires forall b :: Next(params, monitor, Send(params.server, packet, b)).Some?
      modifies this`sent, this`trace, this`monitor
      ensures Valid() && sent == old(sent) + 1 && ok == env.SendWorks(old(sent))
      ensures trace == old(trace) + [Send(params.server, packet, ok)]
      ensures Some(monitor) == Next(params, old(monitor), Send(params.server, packet, ok))
    {
      hide Next, Run, Truthful, Used, Rolls, Rolled;
      ok := env.SendWorks(sent);
      TruthfulStep(env, trace, Send(params.server, packet, ok), taken, sent, polled);
      sent := sent + 1;
      Record(Send(params.server, packet, ok));
    }

    method ReceiveFrom() returns (got: Received)
      requires Valid()
      requires forall g :: Next(params, monitor, Receive(g)).Some?
      modifies this`taken, this`trace, this`monitor
      ensures Valid() && taken == old(taken) + 1 && got == env.Arrival(old(taken))
      ensures trace == old(trace) + [Receive(got)]
      ensures Some(monitor) == Next(params, old(monitor), Receive(got))
    {
      hide Next, Run, Truthful, Used, Rolls, Rolled;
      got := env.Arrival(taken);
      TruthfulStep(env, trace, Receive(got), taken, sent, polled);
      taken := taken + 1;
      Record(Receive(got));
    }

    method StopRequested() returns (stop: bool)
      requires Valid()
      requires forall b :: Next(params, monitor, Poll(b)).Some?
      modifies this`polled, this`trace, this`monitor
      ensures Valid() && polled == old(polled) + 1 && stop == (old(polled) >= env.patience)
      ensures trace == old(trace) + [Poll(stop)]
      ensures Some(monitor) == Next(params, old(monitor), Poll(stop))
    {
      hide Next, Run, Truthful, Used, Rolls, Rolled;
      stop := polled >= env.patience;
      TruthfulStep(env, trace, Poll(stop), taken, sent, polled);
      polled := polled + 1;
      Record(Poll(stop));
    }

    method SleepFor(seconds: nat)
      requires Valid() && Next(params, monitor, Sleep(seconds)).Some?
      modifies this`trace, this`monitor
      ensures Valid() && trace == old(trace) + [Sleep(seconds)]
      ensures Some(monitor) == Next(params, old(monitor), Sleep(seconds))
    {
      hide Next, Run, Truthful, Used, Rolls, Rolled;
      TruthfulStep(env, trace, Sleep(seconds), taken, sent, polled);
      Record(Sleep(seconds));
    }

    /** usleep(200000). */
    method ShortPause()
      requires Valid() && Next(params, monitor, Pause).Some?
      modifies this`trace, this`monitor
      ensures Valid() && trace == old(trace) + [Pause] && Some(monitor) == Next(params, old(monitor), Pause)
    {
      hide Next, Run, Truthful, Used, Rolls, Rolled;
      TruthfulStep(env, trace, Pause, taken, sent, polled);
      Record(Pause);
    }

    method CloseSocket()
      requires Valid() && Next(params, monitor, Close).Some?
      modifies this`trace, this`monitor
      ensures Valid() && trace == old(trace) + [Close] && Some(monitor) == Next(params, old(monitor), Close)
    {
      hide Next, Run, Truthful, Used, Rolls, Rolled;
      TruthfulStep(env, trace, Close, taken, sent, polled);
      Record(Close);
    }

    /** rand() & 0xff. */
    method Rand() returns (r: byte)
      modifies this`drawn
      ensures r == env.Random(old(drawn)) && drawn == old(drawn) + 1
    {
      r := env.Random(drawn);
      drawn := drawn + 1;
    }

    // ---- keepalive.c: exchanges ---------------------------------------------------------------

    /** drcom_udp_recv_expected_packet. What it skips must not matter to the protocol. */
    method ReceiveExpected(pattern: Pattern) returns (reply: Option<seq<byte>>)
      requires Valid()
      requires forall g :: Next(params, monitor, Receive(g)).Some?
      requires forall g: Received :: g.Datagram? && !Accepted(g, params.server, pattern) ==>
                 Next(params, monitor, Receive(g)) == Some(monitor)
      modifies this`taken, this`trace, this`monitor
      ensures Valid() && old(taken) < taken
      ensures var last := env.Arrival(taken - 1);
              && Some(monitor) == Next(params, old(monitor), Receive(last))
              && (reply.Some? ==> Accepted(last, params.server, pattern) && reply.value == last.bytes)
              && (reply.None? ==> last.Failed?)
      ensures forall k :: old(taken) <= k < taken - 1 ==>
                env.Arrival(k).Datagram? && !Accepted(env.Arrival(k), params.server, pattern)
      ensures old(trace) < trace && trace[|trace| - 1] == Receive(env.Arrival(taken - 1))
      ensures forall x :: |old(trace)| <= x < |trace| ==> trace[x].Receive?
      ensures forall x :: |old(trace)| <= x < |trace| - 1 ==> !Hears(trace[x], params.server, pattern)
      ensures Hears(trace[|trace| - 1], params.server, pattern) <==> reply.Some?
    {
      hide Truthful, Used, Rolls, Rolled, Next, Matches, Run;
      ghost var before := monitor;
      while true
        invariant Valid() && monitor == before && old(taken) <= taken && old(trace) <= trace
        invariant forall x :: |old(trace)| <= x < |trace| ==>
                    trace[x].Receive? && !Hears(trace[x], params.server, pattern)
        invariant forall k :: old(taken) <= k < taken ==>
                    env.Arrival(k).Datagram? && !Accepted(env.Arrival(k), params.server, pattern)
        decreases if taken < |env.inbox| then |env.inbox| - taken else 0
      {
        var got := ReceiveFrom();
        if got.Failed? {
          return None;
        }
        if Accepted(got, params.server, pattern) {
          return Some(got.bytes);
        }
      }
    }

    /** drcom_udp_send_recv_expected_with_retries. */
    method Exchange(packet: seq<byte>, pattern: Pattern, ghost goal: Goal, ghost base: Monitor)
      returns (reply: Option<seq<byte>>)
      requires Ready(packet) && !monitor.phase.ResendDue? && !monitor.phase.LoginDue?
      requires Opens(params, monitor, packet) == Some(Opening(goal, pattern, base))
      modifies this`taken, this`sent, this`trace, this`monitor
      ensures Valid() && monitor == Settle(base, goal, reply)
      ensures Exchanged(env, params.server, pattern, old(taken), old(sent), reply, taken, sent)
      ensures reply.Some? ==> Matches(reply.value, pattern)
      ensures old(trace) <= trace && Conducted(trace, |old(trace)|, params.server, packet, pattern, reply)
    {
      hide Truthful, Used, Rolls, Rolled, Next, Settle, Run, Opens, Exchanged, Pending, Matches, Accepted, Failures,
           Asking, Conducted, Hears;
      ghost var start, first, from := taken, sent, |trace|;
      PendingStarts(env, params.server, pattern, start, first);
      AskingStarts(trace, params.server, packet, pattern);
      var attempt := 0;
      while attempt <= RETRY_COUNT
        invariant 0 <= attempt <= RETRY_COUNT + 1 && Ready(packet) && taken >= start && sent == first + attempt
        invariant Pending(env, params.server, pattern, start, first, attempt, taken, sent)
        invariant attempt == 0 ==> monitor == old(monitor)
        invariant 0 < attempt <= RETRY_COUNT ==> monitor == base.(phase := ResendDue(goal, packet, pattern, attempt))
        invariant attempt == RETRY_COUNT + 1 ==> monitor == Settle(base, goal, None)
        invariant old(trace) <= trace && Asking(trace, from, params.server, packet, pattern)
        invariant attempt > 0 ==> from < |trace| && Valid()
        decreases RETRY_COUNT - attempt
      {
        ghost var earlier := trace;
        SendNext(params, monitor, packet, goal, pattern, base, attempt);
        var ok := SendTo(packet);
        AskingSend(earlier, from, params.server, packet, pattern, ok);
        if !ok {
          AskingOut(trace, from, params.server, packet, pattern);
          PendingLost(env, params.server, pattern, start, first, attempt, taken);
          return None;
        }
        ReceiveNext(params, packet, goal, pattern, base, attempt);
        ghost var before, asked := taken, trace;
        reply := ReceiveExpected(pattern);
        AskingReceive(asked, trace, from, params.server, packet, pattern, reply);
        if reply.Some? {
          PendingAnswered(env, params.server, pattern, start, first, attempt, before, taken, reply.value);
          AcceptedMatches(env.Arrival(taken - 1), params.server, pattern);
          return reply;
        }
        PendingNext(env, params.server, pattern, start, first, attempt, before, taken);
        SameAgain(env, trace, packet);
        attempt := attempt + 1;
      }
      PendingOut(env, params.server, pattern, start, first, taken);
      AskingOut(trace, from, params.server, packet, pattern);
      return None;
    }

    // ---- auth.c: challenge and login ----------------------------------------------------------

    /** dhcp_challenge: it also resets the retry delay. */
    method DhcpChallenge() returns (seed: Option<Four>)
      requires Valid() && monitor.phase.AskDue?
      modifies this`taken, this`sent, this`drawn, this`retryDelay, this`trace, this`monitor
      ensures Valid() && retryDelay == DEFAULT_DELAY
      ensures monitor == Monitor(match seed case Some(s) => Seeded(s) case None => Unanswered,
                                 old(monitor).attempts + 1, old(monitor).fails)
      ensures old(trace) <= trace && Challenged(params, trace, |old(trace)|, 0x02, seed)
    {
      hide Truthful, Used, Rolls, Rolled, Run, Opens, Challenge, Exchanged, Conducted;
      ghost var from := |trace|;
      var r1 := Rand();
      var r2 := Rand();
      var packet := BuildChallenge(0x02, r1, r2, params.cfg.authVersion[0]);
      retryDelay := DEFAULT_DELAY;
      OpensAsk(params, monitor, packet[..], r1, r2);
      Rolling(params, env, trace, monitor, packet[..], 2);
      var pattern := Pattern(Some(0x02), None, Some(packet[1]), Some(packet[2]), Some(packet[3]), None, 8);
      var reply := Exchange(packet[..], pattern, Ask, monitor.(attempts := monitor.attempts + 1));
      seed := if reply.None? then None else Some(reply.value[4..8]);
      assert ChallengedBy(params, trace, from, 0x02, r1, r2, reply, seed);
    }

    /** dhcp_login; a key is its return value 0. */
    method DhcpLogin(seed: Four, jlu: bool) returns (key: Option<Key>)
      requires Valid() && monitor.phase == LoginDue(seed) && jlu == Template(params, monitor)
      requires retryDelay == DEFAULT_DELAY && !LoginUndefined(params.cfg, jlu)
      modifies this`taken, this`sent, this`retryDelay, this`trace, this`monitor
      ensures Valid()
      ensures key.Some? ==>
                monitor == Monitor(Online(Link(seed, key.value, 0, 0, 0)), old(monitor).attempts, 0)
      ensures key.None? ==>
                RefusedWith(params, monitor, retryDelay, old(monitor).attempts, old(monitor).fails + 1)
      ensures match LoginOf(params.cfg, seed, jlu, params.signed)
              case Some(packet) => old(trace) <= trace && LoginTried(params, trace, |old(trace)|, packet)
              case None => trace == old(trace) && key.None?
    {
      hide Truthful, Used, Rolls, Rolled, Run, LoginOf, ReplyDelay, Matches, AddressesParse, Overlong;
      var packet := BuildLogin(params.cfg, seed, jlu, params.signed);
      if packet == null {
        return None;
      }
      LoginRollsNot(params, seed, jlu);
      RollsNot(env, trace, packet[..]);
      var _ := SendTo(packet[..]);
      key := LoginReply(seed);
    }

    /** The second half of dhcp_login, behind the send. */
    method LoginReply(seed: Four) returns (key: Option<Key>)
      requires Valid() && monitor.phase == LoginWait(seed) && retryDelay == DEFAULT_DELAY
      modifies this`taken, this`retryDelay, this`trace, this`monitor
      ensures Valid() && old(trace) <= trace && forall x :: |old(trace)| <= x < |trace| ==> trace[x].Receive?
      ensures key.Some? ==>
                monitor == Monitor(Online(Link(seed, key.value, 0, 0, 0)), old(monitor).attempts, 0)
      ensures key.None? ==>
                RefusedWith(params, monitor, retryDelay, old(monitor).attempts, old(monitor).fails + 1)
    {
      hide Truthful, Used, Rolls, Rolled, Run, LoginOf, ReplyDelay, Matches, Hears;
      var reply := ReceiveExpected(LOGIN_PATTERN);
      if reply.None? {
        return None;
      }
      var r := reply.value;
      LoginReplyFits(r);
      if r[0] == 0x04 && |r| < 39 {
        return None;
      }
      if r[0] != 0x04 {
        SetDelayForReply(r);
        return None;
      }
      key := Some(r[23..39]);
      var _ := ReceiveFrom();
    }

    /** The handling of a reply that starts with 5. */
    method SetDelayForReply(reply: seq<byte>)
      modifies this`retryDelay
      ensures retryDelay == ReplyDelay(reply)
      ensures forall c: nat :: IsCooldown(reply, c) ==>
                retryDelay == if |reply| <= 4 || (|reply| == 5 && reply[4] == 0x03) then 3
                              else if reply[4] == 0x15 && c > 0 then c
                              else 60
    {
      ReplyDelayIs(reply);
      hide IsCooldown;
      if |reply| <= 4 {
        retryDelay := NormalizeDelay(SHORT_GENERIC_DELAY);
      } else {
        var retryAfter := ExtractRetryAfter(reply);
        CooldownUnique(reply, retryAfter, Cooldown(reply));
        retryDelay := NormalizeDelay(DelayForReply(reply[4], |reply|, retryAfter));
      }
    }

    // ---- keepalive.c: the two keepalives ------------------------------------------------------

    /** keepalive_1; true is its return value 0. */
    method Keepalive1(seed: Four, key: Key, ghost link: Link) returns (ok: bool)
      requires Valid() && monitor.phase == BeatDue(link) && link.seed == seed && link.key == key
      modifies this`taken, this`sent, this`drawn, this`trace, this`monitor
      ensures Valid() && monitor == old(monitor).(phase := if ok then Resting(link) else Failing(link))
      ensures old(trace) <= trace && FirstBeaten(params, trace, |old(trace)|, seed, key, ok)
    {
      hide Truthful, Used, Rolls, Rolled, Run, Opens, Exchanged, PlainBeat, BeatReply, Failing, Conducted;
      ghost var from := |trace|;
      if params.cfg.keepalive1Mod {
        var reply := AskBeatSeed(link);
        ghost var asked := trace;
        assert trace[..|asked|] == asked;
        if reply.None? {
          assert SeedBeaten(params, trace, from, key, false, |asked|, reply);
          return false;
        }
        var beatSeed: Four := reply.value[8..12];
        var r1 := Rand();
        var r2 := Rand();
        var packet2 := BuildBeatReply(beatSeed, key, r1, r2);
        OpensBeatReply(params, monitor, packet2[..], link, beatSeed, r1, r2);
        Rolling(params, env, trace, monitor, packet2[..], 36);
        var reply2 := Exchange(packet2[..], Any(0x07, 1), Beat(link), monitor);
        ok := reply2.Some?;
        assert trace[..|asked|] == asked;
        assert SeedAnswered(params, trace, |asked|, beatSeed, key, ok, r1, r2, reply2);
        assert SeedBeaten(params, trace, from, key, ok, |asked|, reply);
      } else {
        var r1 := Rand();
        var r2 := Rand();
        var packet := BuildPlainBeat(params.cfg, seed, key, r1, r2);
        OpensPlainBeat(params, monitor, packet[..], link, r1, r2);
        Rolling(params, env, trace, monitor, packet[..], 36);
        ghost var reply;
        ok, reply := PlainLoop(packet[..], link);
        assert PlainBeaten(params, trace, from, seed, key, ok, r1, r2, reply);
      }
    }

    /** The loop around the keepalive seed: it would send again after a notice, which starts with 0x4d. */
    method AskBeatSeed(ghost link: Link) returns (reply: Option<seq<byte>>)
      requires Valid() && monitor.phase == BeatDue(link) && params.cfg.keepalive1Mod
      modifies this`taken, this`sent, this`trace, this`monitor
      ensures Valid() && monitor == Settle(old(monitor), BeatSeed(link), reply)
      ensures reply.Some? ==> |reply.value| >= 12
      ensures old(trace) <= trace && Conducted(trace, |old(trace)|, params.server, BEAT_ASK, Any(0x07, 12), reply)
    {
      hide Truthful, Used, Rolls, Rolled, Run, PhaseAfter, Exchanged, Conducted;
      reply := None;
      var again := true;
      while again
        invariant Valid()
        invariant monitor == if again then old(monitor) else Settle(old(monitor), BeatSeed(link), reply)
        invariant !again && reply.Some? ==> |reply.value| >= 12
        invariant if again then trace == old(trace)
                  else old(trace) <= trace
                       && Conducted(trace, |old(trace)|, params.server, BEAT_ASK, Any(0x07, 12), reply)
        decreases again
      {
        RollsNot(env, trace, BEAT_ASK);
        reply := Exchange(BEAT_ASK, Any(0x07, 12), BeatSeed(link), monitor);
        again := reply.Some? && reply.value[0] == 0x4d;
      }
    }

    /** The same loop around the plain keepalive. */
    method PlainLoop(packet: seq<byte>, ghost link: Link) returns (ok: bool, ghost reply: Option<seq<byte>>)
      requires Ready(packet) && monitor.phase == BeatDue(link)
      requires Opens(params, monitor, packet) == Some(Opening(Beat(link), Any(0x07, 1), monitor))
      modifies this`taken, this`sent, this`trace, this`monitor
      ensures Valid() && monitor == old(monitor).(phase := if ok then Resting(link) else Failing(link))
      ensures old(trace) <= trace && Conducted(trace, |old(trace)|, params.server, packet, Any(0x07, 1), reply)
      ensures ok == reply.Some?
    {
      hide Truthful, Used, Rolls, Rolled, Run, Opens, Exchanged, Failing, Conducted;
      ok, reply := false, None;
      var again := true;
      while again
        invariant if again then Ready(packet) && drawn == old(drawn) else Valid()
        invariant if again then monitor == old(monitor)
                  else monitor == old(monitor).(phase := if ok then Resting(link) else Failing(link))
        invariant ok == reply.Some?
        invariant if again then trace == old(trace)
                  else old(trace) <= trace
                       && Conducted(trace, |old(trace)|, params.server, packet, Any(0x07, 1), reply)
        decreases again
      {
        var received := Exchange(packet, Any(0x07, 1), Beat(link), monitor);
        ok, reply := received.Some?, received;
        again := received.Some? && received.value[0] == 0x4d;
      }
    }

    /** keepalive_2 in dhcp mode; the counter is passed back. */
    method Keepalive2(counter: nat, kind: ExtraKind, ghost link: Link) returns (next: nat, ok: bool)
      requires Valid() && link.exchanges == counter && kind == ExtraOfRound(params.cfg.jluMode, link.rounds)
      requires monitor.phase == if kind.NoExtra? then FirstDue(link) else ExtraDue(link)
      modifies this`taken, this`sent, this`trace, this`monitor
      ensures Valid() && next >= counter
      ensures var after := link.(exchanges := next);
              monitor == old(monitor).(phase := if ok then RoundDone(after) else Failing(after))
      ensures ok ==> next == counter + (if kind.NoExtra? then 2 else 3)
      ensures old(trace) <= trace && SecondBeaten(params, trace, |old(trace)|, kind, counter, next, ok)
    {
      hide Truthful, Used, Rolls, Rolled, Run, Opens, Exchanged, Beat2, Failing, CounterByte, Conducted, RegularBeaten;
      ghost var from := |trace|;
      next, ok := counter, false;
      ghost var now, asked, extra := link, trace, None;
      if !kind.NoExtra? {
        var packetCounter := CounterByte(next);
        var packet := BuildBeat2(params.cfg, packetCounter, kind);
        OpensExtra(params, monitor, packet[..], now);
        RollsNot(env, trace, packet[..]);
        next := next + 1;
        now := Begun(now);
        var reply := Exchange(packet[..], EchoPattern(packetCounter), Extra(now), monitor);
        asked, extra := trace, reply;
        assert trace[..|asked|] == asked;
        if reply.None? || (reply.value[2] != 0x10 && reply.value[2] != 0x28) {
          assert ExtraBeaten(params, trace, from, kind, counter, next, false, |asked|, extra);
          return;
        }
      }
      next, ok := FirstAndThird(next, now);
      assert trace[..|asked|] == asked;
      assert !kind.NoExtra? ==> ExtraBeaten(params, trace, from, kind, counter, next, ok, |asked|, extra);
    }

    /** The two regular exchanges of keepalive_2. */
    method FirstAndThird(counter: nat, ghost link: Link) returns (next: nat, ok: bool)
      requires Valid() && link.exchanges == counter && monitor.phase == FirstDue(link)
      modifies this`taken, this`sent, this`trace, this`monitor
      ensures Valid() && next >= counter
      ensures var after := link.(exchanges := next);
              monitor == old(monitor).(phase := if ok then RoundDone(after) else Failing(after))
      ensures ok ==> next == counter + 2
      ensures old(trace) <= trace && RegularBeaten(params, trace, |old(trace)|, counter, next, ok)
    {
      hide Truthful, Used, Rolls, Rolled, Run, Opens, Exchanged, Beat2, Failing, CounterByte, Conducted;
      ghost var from := |trace|;
      next, ok := counter, false;
      var firstCounter := CounterByte(next);
      var packet := BuildBeat2(params.cfg, firstCounter, NoExtra);
      OpensFirst(params, monitor, packet[..], link);
      RollsNot(env, trace, packet[..]);
      next := next + 1;
      ghost var now := Begun(link);
      var reply := Exchange(packet[..], FirstPattern(firstCounter), First(now), monitor);
      ghost var asked := trace;
      assert trace[..|asked|] == asked;
      if reply.None? {
        assert FirstThenThird(params, trace, from, counter, next, false, |asked|, reply);
        return;
      }
      var tail: Four := reply.value[16..20];
      var thirdCounter := CounterByte(next);
      var third := BuildBeat2Third(params.cfg, thirdCounter, tail);
      OpensThird(params, monitor, third[..], now, tail);
      RollsNot(env, trace, third[..]);
      next := next + 1;
      now := Begun(now);
      var reply2 := Exchange(third[..], ThirdPattern(thirdCounter), Third(now), monitor);
      ok := reply2.Some?;
      assert trace[..|asked|] == asked;
      assert ThirdBeaten(params, trace, |asked|, thirdCounter, tail, ok, reply2);
      assert FirstThenThird(params, trace, from, counter, next, ok, |asked|, reply);
    }

    // ---- auth.c: logout and the main loop -----------------------------------------------------

    /** dhcp_logout_challenge. */
    method DhcpLogoutChallenge(ghost key: Key) returns (seed: Option<Four>)
      requires Valid() && monitor.phase == LogoutAskDue(key)
      modifies this`taken, this`sent, this`drawn, this`trace, this`monitor
      ensures Valid()
      ensures monitor == old(monitor).(phase := match seed case Some(s) => LogoffDue(key, s) case None => Exiting)
      ensures old(trace) <= trace && Challenged(params, trace, |old(trace)|, 0x03, seed)
    {
      hide Truthful, Used, Rolls, Rolled, Run, Opens, Challenge, Exchanged, Conducted;
      ghost var from := |trace|;
      var r1 := Rand();
      var r2 := Rand();
      var packet := BuildChallenge(0x03, r1, r2, params.cfg.authVersion[0]);
      OpensLogoutAsk(params, monitor, packet[..], key, r1, r2);
      Rolling(params, env, trace, monitor, packet[..], 2);
      var pattern := Pattern(Some(0x02), None, Some(packet[1]), Some(packet[2]), Some(packet[3]), None, 8);
      var reply := Exchange(packet[..], pattern, LogoutAsk(key), monitor);
      seed := if reply.None? then None else Some(reply.value[4..8]);
      assert ChallengedBy(params, trace, from, 0x03, r1, r2, reply, seed);
    }

    /** dhcp_logout. */
    method DhcpLogout(seed: Four, key: Key)
      requires Valid() && monitor.phase == LogoffDue(key, seed)
      modifies this`taken, this`sent, this`trace, this`monitor
      ensures Valid() && monitor == old(monitor).(phase := Exiting)
      ensures old(trace) <= trace && LoggedOff(params, trace, |old(trace)|, seed, key)
    {
      hide Truthful, Used, Rolls, Rolled, Run, Exchanged, Logout, Conducted;
      var packet := new byte[80];
      BuildLogout(params.cfg, seed, key, packet);
      LogoutRollsNot(params, seed, key);
      RollsNot(env, trace, packet[..]);
      var _ := Exchange(packet[..], Any(0x04, 1), Logoff(key, seed), monitor);
    }

    /** logout_before_stop_exit. */
    method LogoutBeforeStopExit(key: Key)
      requires Valid() && monitor.phase == LogoutAskDue(key)
      modifies this`taken, this`sent, this`drawn, this`trace, this`monitor
      ensures Valid() && monitor == old(monitor).(phase := Exiting)
      ensures old(trace) <= trace && LeftSession(params, trace, |old(trace)|, key)
    {
      hide Truthful, Used, Rolls, Rolled, Run, Challenged, LoggedOff;
      ghost var from := |trace|;
      var seed := DhcpLogoutChallenge(key);
      ghost var asked := trace;
      assert trace[..|asked|] == asked;
      if seed.Some? {
        DhcpLogout(seed.value, key);
        assert trace[..|asked|] == asked;
      }
      assert LeftBy(params, trace, from, key, |asked|, seed);
    }

    /** One round of the keepalive loop, after the look at the stop flag. */
    method KeepaliveRound(seed: Four, key: Key, counter: nat, failures: nat, rounds: nat)
      returns (counter': nat, failures': nat, rounds': nat, reconnect: bool)
      requires Valid() && failures < RECONNECT_THRESHOLD
      requires monitor.phase == BeatDue(Link(seed, key, counter, failures, rounds))
      modifies this`taken, this`sent, this`drawn, this`retryDelay, this`trace, this`monitor
      ensures Valid() && (reconnect ==> retryDelay == DEFAULT_DELAY)
      ensures monitor == old(monitor).(phase := if reconnect then Lost(key)
                                                else Online(Link(seed, key, counter', failures', rounds')))
      ensures !reconnect ==> failures' < RECONNECT_THRESHOLD
      ensures old(trace) <= trace
    {
      hide Truthful, Used, Rolls, Rolled, Run, AfterSend, AfterReceive, LoginOf, FirstBeaten,
           SecondBeaten;
      ghost var link := Link(seed, key, counter, failures, rounds);
      counter', failures', rounds', reconnect := counter, failures, rounds, false;
      var ok := Keepalive1(seed, key, link);
      if ok {
        var kind := NoExtra;
        ShortPause();
        if params.cfg.jluMode {
          kind := ExtraPacketKind(rounds);
        } else if rounds == 0 {
          kind := FirstExtra;
        }
        counter', ok := Keepalive2(counter, kind, link);
        if ok {
          rounds' := rounds + 1;
          failures' := NextFailureCount(failures, true);
          SleepFor(20);
          return;
        }
      }
      failures' := NextFailureCount(failures, false);
      if ShouldReconnect(failures') {
        retryDelay := NormalizeDelay(DEFAULT_DELAY);
        reconnect := true;
      }
    }

    /** A look at the stop flag within a session: if it is set, the client logs out and closes the socket. */
    method StopSession(key: Key) returns (stop: bool)
      requires Valid()
      requires monitor.phase == Lost(key) || (monitor.phase.Online? && monitor.phase.link.key == key)
      modifies this`taken, this`sent, this`polled, this`drawn, this`trace, this`monitor
      ensures Valid() && polled == old(polled) + 1 && stop == (old(polled) >= env.patience)
      ensures stop ==> monitor == old(monitor).(phase := Closed)
      ensures !stop ==> Some(monitor) == AfterPoll(params, old(monitor), false)
      ensures old(trace) < trace && trace[|old(trace)|] == Poll(stop)
      ensures if stop then
                trace[|trace| - 1] == Close && LeftSession(params, trace[..|trace| - 1], |old(trace)| + 1, key)
              else |trace| == |old(trace)| + 1
    {
      hide Truthful, Used, Rolls, Rolled, Run, AfterSend, AfterReceive, LoginOf, LeftSession;
      stop := StopRequested();
      if stop {
        LogoutBeforeStopExit(key);
        ghost var left := trace;
        CloseSocket();
        assert trace[..|trace| - 1] == left;
      }
    }

    /** The keepalive loop of a session; it returns after six failures in a row or because of the stop
        flag, and then the socket is closed. */
    method KeepSession(seed: Four, key: Key) returns (left: bool)
      requires Valid() && monitor.phase == Online(Link(seed, key, 0, 0, 0)) && retryDelay == DEFAULT_DELAY
      modifies this`taken, this`sent, this`polled, this`drawn, this`retryDelay, this`trace, this`monitor
      ensures Valid() && old(polled) < polled && left == (polled > env.patience)
      ensures monitor == old(monitor).(phase := if left then Closed else Top)
      ensures old(trace) <= trace
    {
      hide Truthful, Used, Rolls, Rolled, Run, AfterSend, AfterReceive, LoginOf, LeftSession;
      var counter: nat, failures: nat, rounds: nat := 0, 0, 0;
      while true
        invariant Valid() && failures < RECONNECT_THRESHOLD && old(polled) <= polled && old(trace) <= trace
        invariant old(polled) < polled ==> polled <= env.patience
        invariant monitor == old(monitor).(phase := Online(Link(seed, key, counter, failures, rounds)))
        decreases if polled < env.patience then env.patience - polled else 0
      {
        left := StopSession(key);
        if left {
          return;
        }
        var reconnect;
        counter, failures, rounds, reconnect := KeepaliveRound(seed, key, counter, failures, rounds);
        if reconnect {
          break;
        }
      }
      left := StopSession(key);
      if left {
        return;
      }
      SleepFor(NormalizeDelay(retryDelay));
    }

    /** After an attempt that failed: out if the stop flag is set, else a sleep before the next one. */
    method RetryLater(ghost attempts: nat, ghost fails: nat) returns (left: bool)
      requires Valid() && RefusedWith(params, monitor, retryDelay, attempts, fails)
      modifies this`polled, this`trace, this`monitor
      ensures Valid() && old(polled) < polled && left == (polled > env.patience)
      ensures monitor == Monitor(if left then Closed else Top, attempts, fails)
      ensures old(trace) <= trace
    {
      hide Truthful, Used, Rolls, Rolled, Run, AfterSend, AfterReceive, LoginOf, AfterPoll;
      left := StopRequested();
      if left {
        CloseSocket();
        return;
      }
      SleepFor(NormalizeDelay(retryDelay));
    }

    /** One pass of the attempt loop, after its look at the stop flag; none means that the loop goes on. */
    method Attempt(failedAttempts: nat) returns (failed: nat, end: Option<Outcome>)
      requires Valid() && monitor.phase.AskDue? && monitor.fails == failedAttempts
      modifies this`taken, this`sent, this`polled, this`drawn, this`retryDelay, this`trace, this`monitor
      ensures Valid() && old(polled) <= polled && old(trace) <= trace
      ensures match end
              case None =>
                old(polled) < polled <= env.patience && monitor == Monitor(Top, old(monitor).attempts + 1, failed)
              case Some(Exit(code)) => code == 0 && polled > env.patience && monitor.phase == Closed
              case Some(Undefined) => polled == old(polled) && Stuck(params, monitor)
    {
      hide Truthful, Used, Rolls, Rolled, Run, AfterSend, AfterReceive, LoginOf,
           RefusedWith, LoginUndefined, Challenged, LoginTried;
      ghost var attempts := monitor.attempts + 1;
      failed, end := failedAttempts, None;
      var seed := DhcpChallenge();
      var left;
      if seed.None? {
        UnansweredRefused(params, monitor);
        left := RetryLater(attempts, failed);
      } else {
        ShortPause();
        var jlu := JluTemplate(params.cfg.jluMode, failed);
        if LoginUndefined(params.cfg, jlu) {
          return failed, Some(Undefined);
        }
        var key := DhcpLogin(seed.value, jlu);
        if key.Some? {
          failed := 0;
          retryDelay := DEFAULT_DELAY;
          left := KeepSession(seed.value, key.value);
        } else {
          failed := failed + 1;
          left := RetryLater(attempts, failed);
        }
      }
      if left {
        end := Some(Exit(0));
      }
    }

    /** maybe_delay_initial_login. */
    method MaybeDelayInitialLogin()
      requires Valid() && monitor.phase.Booting?
      modifies this`trace, this`monitor
      ensures Valid() && (monitor.phase.Booting? || monitor.phase.Booted?)
      ensures var delay := params.cfg.startupDelay;
              trace == if 0 < env.uptime < delay then old(trace) + [Sleep(delay - env.uptime)] else old(trace)
      ensures monitor.attempts == old(monitor).attempts && monitor.fails == old(monitor).fails
    {
      hide Truthful, Used, Rolls, Rolled, Run, AfterSend, AfterReceive, LoginOf;
      var startup := params.cfg.startupDelay;
      if startup <= 0 || env.uptime <= 0 || env.uptime >= startup {
        return;
      }
      SleepFor(startup - env.uptime);
    }

    /** A look at the stop flag outside of a session: if it is set, the socket is closed. */
    method LeaveIfStopped(ghost going: Phase) returns (left: bool)
      requires Valid()
      requires forall b :: AfterPoll(params, monitor, b) == Some(monitor.(phase := if b then Exiting else going))
      modifies this`polled, this`trace, this`monitor
      ensures Valid() && polled == old(polled) + 1 && left == (old(polled) >= env.patience)
      ensures monitor == old(monitor).(phase := if left then Closed else going)
      ensures trace == old(trace) + if left then [Poll(true), Close] else [Poll(false)]
    {
      hide Truthful, Used, Rolls, Rolled, Run, AfterSend, AfterReceive, LoginOf, AfterPoll;
      left := StopRequested();
      if left {
        CloseSocket();
      }
    }

    /** dogcom once the socket is open: a run ends with the socket closed, and with 0 exactly if it saw the
        stop flag set; or it comes to a login that is not defined. */
    method Dogcom() returns (result: Outcome)
      requires Valid() && trace == [] && monitor == START && polled == 0
      modifies this`taken, this`sent, this`polled, this`drawn, this`retryDelay, this`trace, this`monitor
      ensures Valid()
      ensures var delay, look := params.cfg.startupDelay, Poll(env.patience == 0);
              (if 0 < env.uptime < delay then [Sleep(delay - env.uptime), look] else [look]) <= trace
      ensures match result
              case Exit(code) => monitor.phase == Closed && code == if polled > env.patience then 0 else 1
              case Undefined => polled <= env.patience && Stuck(params, monitor)
    {
      hide Truthful, Used, Rolls, Rolled, Run, AfterSend, AfterReceive, LoginOf, LoginUndefined;
      MaybeDelayInitialLogin();
      var left := LeaveIfStopped(Top);
      if left {
        return Exit(0);
      }
      result := AttemptLoop();
    }

    method AttemptLoop() returns (result: Outcome)
      requires Valid() && monitor == Monitor(Top, 0, 0) && polled <= env.patience
      modifies this`taken, this`sent, this`polled, this`drawn, this`retryDelay, this`trace, this`monitor
      ensures Valid() && old(trace) <= trace
      ensures match result
              case Exit(code) => monitor.phase == Closed && code == if polled > env.patience then 0 else 1
              case Undefined => polled <= env.patience && Stuck(params, monitor)
    {
      hide Truthful, Used, Rolls, Rolled, Run, AfterSend, AfterReceive, LoginOf, LoginUndefined;
      var failedAttempts: nat := 0;
      var tryCounter := 0;
      while tryCounter < params.tryTimes
        invariant Valid() && monitor.phase == Top && monitor.fails == failedAttempts && tryCounter >= 0
        invariant polled <= env.patience && old(trace) <= trace
        invariant tryCounter == if params.eternal && monitor.attempts > 0 then 1 else monitor.attempts
        decreases if polled < env.patience then env.patience - polled else 0
      {
        var left := LeaveIfStopped(AskDue);
        if left {
          return Exit(0);
        }
        if params.eternal {
          tryCounter := 0;
        }
        var end;
        failedAttempts, end := Attempt(failedAttempts);
        if end.Some? {
          return end.value;
        }
        tryCounter := tryCounter + 1;
      }
      CloseSocket();
      return Exit(1);
    }
  }

  /** Where random bytes are drawn, a packet that has them is ready. */
  lemma Rolling(P: Params, env: Env, tr: seq<Action>, m: Monitor, packet: seq<byte>, place: nat)
    requires P.Ok() && Run(P, tr) == Some(m) && Fresh(m.phase) && RandomPlace(packet) == Some(place)
    requires packet[place] == env.Random(Used(tr)) && packet[place + 1] == env.Random(Used(tr) + 1)
    ensures Rolls(tr, packet) && Rolled(env, tr, packet)
  {
    hide Run;
    ReachableLast(P, tr);
  }

  /** A login is too long to have random bytes. */
  lemma LoginRollsNot(P: Params, seed: Four, jlu: bool)
    requires P.Ok() && LoginOf(P.cfg, seed, jlu, P.signed).Some?
    ensures RandomPlace(LoginOf(P.cfg, seed, jlu, P.signed).value).None?
  {
    hide LoginFixed, Encoded, BodyChecksum, Padding, Trailing, EndCode;
  }

  lemma LogoutRollsNot(P: Params, seed: Four, key: Key)
    requires P.Ok()
    ensures RandomPlace(Logout(P.cfg, seed, key)).None?
  {
    hide Logout;
  }

  /** Packets without random bytes are ready at once. */
  lemma RollsNot(env: Env, tr: seq<Action>, packet: seq<byte>)
    requires RandomPlace(packet).None?
    ensures !Rolls(tr, packet) && Rolled(env, tr, packet)
  {
  }

  /** What a send leads to within an exchange. */
  lemma SendNext(P: Params, m: Monitor, packet: seq<byte>, goal: Goal, pattern: Pattern, base: Monitor, attempt: nat)
    requires P.Ok()
    requires attempt == 0 ==>
               !m.phase.ResendDue? && !m.phase.LoginDue? && Opens(P, m, packet) == Some(Opening(goal, pattern, base))
    requires attempt > 0 ==> m == base.(phase := ResendDue(goal, packet, pattern, attempt))
    ensures forall b :: Next(P, m, Send(P.server, packet, b)) ==
                        Some(if b then base.(phase := Waiting(goal, packet, pattern, attempt))
                             else Settle(base, goal, None))
  {
    hide Opens, LoginOf, PhaseAfter;
  }

  /** And a receive. */
  lemma ReceiveNext(P: Params, packet: seq<byte>, goal: Goal, pattern: Pattern, base: Monitor, attempt: nat)
    requires P.Ok()
    ensures var m := base.(phase := Waiting(goal, packet, pattern, attempt));
            forall g :: Next(P, m, Receive(g)) ==
                        Some(if Accepted(g, P.server, pattern) then Settle(base, goal, Some(g.bytes))
                             else if g.Datagram? then m
                             else if attempt < RETRY_COUNT then
                               base.(phase := ResendDue(goal, packet, pattern, attempt + 1))
                             else Settle(base, goal, None))
  {
    hide Matches, PhaseAfter;
  }

  /** What is sent again draws nothing. */
  lemma SameAgain(env: Env, tr: seq<Action>, packet: seq<byte>)
    requires tr != [] && tr[|tr| - 1] == Receive(Failed)
    ensures !Rolls(tr, packet) && Rolled(env, tr, packet)
  {
  }

  lemma AskingStarts(tr: seq<Action>, server: Address, packet: seq<byte>, p: Pattern)
    ensures Asking(tr, |tr|, server, packet, p)
  {
  }

  lemma OpensLogoutAsk(P: Params, m: Monitor, packet: seq<byte>, key: Key, r1: byte, r2: byte)
    requires P.Ok() && m.phase == LogoutAskDue(key) && packet == Challenge(0x03, r1, r2, P.cfg.authVersion[0])
    ensures packet[1] == 0x03 && packet[2] == r1 && packet[3] == r2 && RandomPlace(packet) == Some(2)
    ensures Opens(P, m, packet) == Some(Opening(LogoutAsk(key), AskPattern(packet), m))
  {
  }

  lemma OpensBeatReply(P: Params, m: Monitor, packet: seq<byte>, link: Link, beatSeed: Four, r1: byte, r2: byte)
    requires P.Ok() && m.phase == BeatReplyDue(link, beatSeed) && P.cfg.keepalive1Mod
    requires packet == BeatReply(beatSeed, link.key, r1, r2)
    ensures RandomPlace(packet) == Some(36) && packet[36] == r1 && packet[37] == r2
    ensures Opens(P, m, packet) == Some(Opening(Beat(link), Any(0x07, 1), m))
  {
    hide Crc, KindOf;
    assert packet[36] == r1 && packet[37] == r2;
  }

  lemma OpensPlainBeat(P: Params, m: Monitor, packet: seq<byte>, link: Link, r1: byte, r2: byte)
    requires P.Ok() && m.phase == BeatDue(link) && !P.cfg.keepalive1Mod
    requires packet == PlainBeat(P.cfg, link.seed, link.key, r1, r2)
    ensures RandomPlace(packet) == Some(36) && packet[36] == r1 && packet[37] == r2
    ensures Opens(P, m, packet) == Some(Opening(Beat(link), Any(0x07, 1), m))
  {
    hide Md5A;
    assert packet[36] == r1 && packet[37] == r2;
  }

  lemma OpensExtra(P: Params, m: Monitor, packet: seq<byte>, link: Link)
    requires P.Ok() && m.phase == ExtraDue(link)
    requires packet == Beat2(P.cfg, CounterByte(link.exchanges), ExtraOfRound(P.cfg.jluMode, link.rounds), false,
                             NO_TAIL)
    ensures RandomPlace(packet).None?
    ensures Opens(P, m, packet) == Some(Opening(Extra(Begun(link)), EchoPattern(CounterByte(link.exchanges)), m))
  {
    hide Beat2;
  }

  lemma OpensFirst(P: Params, m: Monitor, packet: seq<byte>, link: Link)
    requires P.Ok() && m.phase == FirstDue(link)
    requires packet == Beat2(P.cfg, CounterByte(link.exchanges), NoExtra, false, NO_TAIL)
    ensures RandomPlace(packet).None?
    ensures Opens(P, m, packet) == Some(Opening(First(Begun(link)), FirstPattern(CounterByte(link.exchanges)), m))
  {
    hide Beat2;
  }

  lemma OpensThird(P: Params, m: Monitor, packet: seq<byte>, link: Link, tail: Four)
    requires P.Ok() && m.phase == ThirdDue(link, tail)
    requires packet == Beat2(P.cfg, CounterByte(link.exchanges), NoExtra, true, tail)
    ensures RandomPlace(packet).None?
    ensures Opens(P, m, packet) == Some(Opening(Third(Begun(link)), ThirdPattern(CounterByte(link.exchanges)), m))
  {
    hide Beat2;
  }

  /** A login attempt that failed: the next look at the stop flag leads out or into this delay. */
  ghost predicate RefusedWith(P: Params, m: Monitor, delay: int, attempts: nat, fails: nat)
    requires P.Ok()
  {
    && delay > 0
    && forall b :: AfterPoll(P, m, b) == Some(Monitor(if b then Exiting else Delaying(delay), attempts, fails))
  }

  lemma UnansweredRefused(P: Params, m: Monitor)
    requires P.Ok() && m.phase.Unanswered?
    ensures RefusedWith(P, m, DEFAULT_DELAY, m.attempts, m.fails)
  {
  }

  lemma OpensAsk(P: Params, m: Monitor, packet: seq<byte>, r1: byte, r2: byte)
    requires P.Ok() && m.phase.AskDue? && packet == Challenge(0x02, r1, r2, P.cfg.authVersion[0])
    ensures packet[1] == 0x02 && packet[2] == r1 && packet[3] == r2 && RandomPlace(packet) == Some(2)
    ensures Opens(P, m, packet) == Some(Opening(Ask, AskPattern(packet), m.(attempts := m.attempts + 1)))
  {
  }

  lemma LoginReplyFits(r: seq<byte>)
    requires Matches(r, LOGIN_PATTERN)
    ensures |r| >= 1 && (r[0] == 0x04 || r[0] == 0x05)
  {
  }

  /** An exchange between two attempts: each attempt so far ended with a failed receive. */
  ghost predicate Pending(env: Env, server: Address, p: Pattern, start: nat, first: nat, attempt: nat,
    taken: nat, sent: nat)
  {
    && start <= taken && sent == first + attempt
    && Failures(env, start, taken) == attempt
    && (attempt == 0 ==> start == taken)
    && (attempt > 0 ==> start < taken && env.Arrival(taken - 1).Failed?)
    && (forall k :: start <= k < taken ==> !Accepted(env.Arrival(k), server, p))
    && (forall k :: first <= k < sent ==> env.SendWorks(k))
  }

  lemma PendingStarts(env: Env, server: Address, p: Pattern, start: nat, first: nat)
    ensures Pending(env, server, p, start, first, 0, start, first)
  {
  }

  lemma PendingLost(env: Env, server: Address, p: Pattern, start: nat, first: nat, attempt: nat, taken: nat)
    requires attempt <= RETRY_COUNT && Pending(env, server, p, start, first, attempt, taken, first + attempt)
    requires !env.SendWorks(first + attempt)
    ensures Exchanged(env, server, p, start, first, None, taken, first + attempt + 1)
  {
  }

  lemma PendingNext(env: Env, server: Address, p: Pattern, start: nat, first: nat, attempt: nat,
    before: nat, taken: nat)
    requires Pending(env, server, p, start, first, attempt, before, first + attempt) && before < taken
    requires env.SendWorks(first + attempt) && env.Arrival(taken - 1).Failed?
    requires forall k :: before <= k < taken - 1 ==> env.Arrival(k).Datagram? && !Accepted(env.Arrival(k), server, p)
    ensures Pending(env, server, p, start, first, attempt + 1, taken, first + attempt + 1)
  {
    FailuresGrow(env, start, before, taken - 1);
    NoFailures(env, before, taken - 1);
  }

  lemma PendingAnswered(env: Env, server: Address, p: Pattern, start: nat, first: nat, attempt: nat,
    before: nat, taken: nat, reply: seq<byte>)
    requires attempt <= RETRY_COUNT && before < taken
    requires Pending(env, server, p, start, first, attempt, before, first + attempt)
    requires env.SendWorks(first + attempt)
    requires Accepted(env.Arrival(taken - 1), server, p) && reply == env.Arrival(taken - 1).bytes
    requires forall k :: before <= k < taken - 1 ==> env.Arrival(k).Datagram? && !Accepted(env.Arrival(k), server, p)
    ensures Exchanged(env, server, p, start, first, Some(reply), taken, first + attempt + 1)
  {
    FailuresGrow(env, start, before, taken - 1);
    NoFailures(env, before, taken - 1);
  }

  lemma PendingOut(env: Env, server: Address, p: Pattern, start: nat, first: nat, taken: nat)
    requires Pending(env, server, p, start, first, RETRY_COUNT + 1, taken, first + RETRY_COUNT + 1)
    ensures Exchanged(env, server, p, start, first, None, taken, first + RETRY_COUNT + 1)
  {
  }

  lemma AcceptedMatches(got: Received, server: Address, p: Pattern)
    requires Accepted(got, server, p)
    ensures got.Datagram? && Matches(got.bytes, p)
  {
  }

  lemma {:induction false} NoFailures(env: Env, start: nat, end: nat)
    requires start <= end && forall k :: start <= k < end ==> env.Arrival(k).Datagram?
    ensures Failures(env, start, end) == 0
    decreases end
  {
    if start < end {
      NoFailures(env, start, end - 1);
    }
  }
}
