/** The acceptance filter is strong enough for the code behind it. */
module Adequacy {
  import opened Words
  import opened Text
  import opened Net
  import opened Beats
  import opened Session
  import opened Safety
  import opened Echoes

  /** The last byte, counted from one, that the code reads of the answer to an exchange. */
  function BytesRead(goal: Goal): nat {
    match goal
    case Ask => 8
    case LogoutAsk(_) => 8
    case BeatSeed(_) => 12
    case Beat(_) => 1
    case Extra(_) => 3
    case First(_) => 20
    case Third(_) => 6
    case Logoff(_, _) => 1
  }

  function FirstByte(goal: Goal): byte {
    match goal
    case Ask => 0x02
    case LogoutAsk(_) => 0x02
    case Logoff(_, _) => 0x04
    case _ => 0x07
  }

  /** The answer to a challenge repeats its code and its random bytes. */
  predicate Echoed(asked: seq<byte>, b: seq<byte>) {
    |asked| == 20 && |b| >= 8 && b[0] == 0x02 && b[1] == asked[1] && b[2] == asked[2] && b[3] == asked[3]
  }

  /** What a reply to a packet has to look like: its length, and the bytes that are looked at. */
  predicate Wanted(goal: Goal, asked: seq<byte>, b: seq<byte>) {
    match goal
    case Ask => Echoed(asked, b)
    case LogoutAsk(_) => Echoed(asked, b)
    case BeatSeed(_) => |b| >= 12 && b[0] == 0x07
    case Beat(_) => |b| >= 1 && b[0] == 0x07
    case Extra(_) => |asked| == 40 && |b| >= 3 && b[0] == 0x07 && b[1] == asked[1]
    case First(_) => |asked| == 40 && |b| >= 20 && b[0] == 0x07 && b[1] == asked[1] && b[2] == 0x28 && b[5] == 0x02
    case Third(_) => |asked| == 40 && |b| >= 6 && b[0] == 0x07 && b[1] == asked[1] && b[2] == 0x28 && b[5] == 0x04
    case Logoff(_, _) => |b| >= 1 && b[0] == 0x04
  }

  /** The filter of an exchange. */
  predicate Guards(goal: Goal, asked: seq<byte>, p: Pattern) {
    match goal
    case Ask =>
      |asked| == 20 && p == Pattern(Some(0x02), None, Some(asked[1]), Some(asked[2]), Some(asked[3]), None, 8)
    case LogoutAsk(_) =>
      |asked| == 20 && p == Pattern(Some(0x02), None, Some(asked[1]), Some(asked[2]), Some(asked[3]), None, 8)
    case BeatSeed(_) => p == Pattern(Some(0x07), None, None, None, None, None, 12)
    case Beat(_) => p == Pattern(Some(0x07), None, None, None, None, None, 1)
    case Extra(_) => |asked| == 40 && p == Pattern(Some(0x07), None, Some(asked[1]), None, None, None, 3)
    case First(_) =>
      |asked| == 40 && p == Pattern(Some(0x07), None, Some(asked[1]), Some(0x28), None, Some(0x02), 20)
    case Third(_) =>
      |asked| == 40 && p == Pattern(Some(0x07), None, Some(asked[1]), Some(0x28), None, Some(0x04), 6)
    case Logoff(_, _) => p == Pattern(Some(0x04), None, None, None, None, None, 1)
  }

  /** It lets through exactly these replies. */
  lemma GuardsExactly(goal: Goal, asked: seq<byte>, p: Pattern, b: seq<byte>)
    requires Guards(goal, asked, p)
    ensures Matches(b, p) <==> Wanted(goal, asked, b)
  {
  }

  predicate Guarded(phase: Phase) {
    && (phase.Waiting? ==> Guards(phase.goal, phase.packet, phase.pattern))
    && (phase.ResendDue? ==> Guards(phase.goal, phase.packet, phase.pattern))
  }

  lemma OpensGuarded(P: Params, m: Monitor, packet: seq<byte>)
    requires P.Ok() && Opens(P, m, packet).Some?
    ensures var o := Opens(P, m, packet).value; Guards(o.goal, packet, o.pattern)
  {
    hide PlainBeat, BeatReply, Beat2, Challenge, Layout.Logout, CounterByte;
  }

  lemma GuardedStep(P: Params, m: Monitor, a: Action, n: Monitor)
    requires P.Ok() && Guarded(m.phase) && Next(P, m, a) == Some(n)
    ensures Guarded(n.phase)
  {
    hide Opens, Layout.LoginOf, ReplyDelay, Matches, Guards;
    if a.Send? && Opens(P, m, a.packet).Some? {
      OpensGuarded(P, m, a.packet);
    }
  }

  lemma StartGuarded()
    ensures Guarded(START.phase)
  {
  }

  lemma {:induction false} ReachableGuarded(P: Params, tr: seq<Action>)
    requires P.Ok() && Safety.Accepts(P, tr)
    ensures Guarded(Run(P, tr).value.phase)
  {
    hide Guarded, Next;
    if tr == [] {
      StartGuarded();
    } else {
      LastStep(P, tr);
      ReachableGuarded(P, tr[..|tr| - 1]);
      GuardedStep(P, Run(P, tr[..|tr| - 1]).value, tr[|tr| - 1], Run(P, tr).value);
    }
  }

  /** The packet of an exchange that waits is the one that was sent last. */
  ghost predicate WaitsForLast(P: Params, tr: seq<Action>, phase: Phase) {
    phase.Waiting? ==> AskedLast(P, tr, phase.packet)
  }

  lemma LastSendStep(P: Params, front: seq<Action>, m: Monitor, a: Action, n: Monitor)
    requires P.Ok() && WaitsForLast(P, front, m.phase) && Next(P, m, a) == Some(n)
    ensures WaitsForLast(P, front + [a], n.phase)
  {
    if n.phase.Waiting? {
      WaitingFrom(P, m, a, n);
      var tr := front + [a];
      if a.Send? {
        assert Carries(tr[|front|], P.server, a.packet) && NoSend(tr, |front| + 1, |tr|);
      } else {
        LastStays(P, front, a, n.phase.packet);
      }
    }
  }

  lemma WaitingFrom(P: Params, m: Monitor, a: Action, n: Monitor)
    requires P.Ok() && Next(P, m, a) == Some(n) && n.phase.Waiting?
    ensures if a.Send? then a.dest == P.server && n.phase.packet == a.packet
            else m.phase.Waiting? && n.phase.packet == m.phase.packet
  {
    hide Opens, Layout.LoginOf, ReplyDelay, Matches;
  }

  lemma {:induction false} ReachableLastSend(P: Params, tr: seq<Action>)
    requires P.Ok() && Safety.Accepts(P, tr)
    ensures WaitsForLast(P, tr, Run(P, tr).value.phase)
  {
    hide Next;
    if tr != [] {
      var front, a := tr[..|tr| - 1], tr[|tr| - 1];
      LastStep(P, tr);
      ReachableLastSend(P, front);
      assert tr == front + [a];
      LastSendStep(P, front, Run(P, front).value, a, Run(P, tr).value);
    }
  }

  /** While a run waits for the answer to a packet, the filter accepts a datagram if and only if it comes from the
      server, is long enough, and has the bytes that tell an answer to this packet. */
  lemma FilterExact(P: Params, tr: seq<Action>, got: Received)
    requires P.Ok() && Safety.Accepts(P, tr) && Run(P, tr).value.phase.Waiting?
    ensures var phase := Run(P, tr).value.phase;
            && AskedLast(P, tr, phase.packet)
            && (Accepted(got, P.server, phase.pattern) <==>
                got.Datagram? && got.source == P.server && Wanted(phase.goal, phase.packet, got.bytes))
  {
    ReachableGuarded(P, tr);
    ReachableLastSend(P, tr);
    hide Run, Guards, Wanted, Matches, AskedLast;
    if got.Datagram? {
      var phase := Run(P, tr).value.phase;
      GuardsExactly(phase.goal, phase.packet, phase.pattern, got.bytes);
    }
  }

  /** So a proper answer to the packet of type 1 is never passed over: the packet of type 3 goes out next, with bytes 16
      to 19 of that answer. */
  lemma ThirdFollows(P: Params, tr: seq<Action>, i: nat, b: seq<byte>)
    requires P.Ok() && Safety.Accepts(P, tr) && i + 1 < |tr| && tr[i] == Receive(Datagram(P.server, b))
    requires Run(P, tr[..i]).Some? && Run(P, tr[..i]).value.phase.Waiting?
    requires Run(P, tr[..i]).value.phase.goal.First?
    requires var asked := Run(P, tr[..i]).value.phase.packet;
             |asked| == 40 && |b| >= 20 && b[0] == 0x07 && b[1] == asked[1] && b[2] == 0x28 && b[5] == 0x02
    ensures tr[i + 1].Send? && tr[i + 1].dest == P.server && IsSecondOf(tr[i + 1].packet, 0x03)
    ensures tr[i + 1].packet[16..20] == b[16..20]
  {
    hide Run, Next, AskedLast, Wanted;
    PrefixRuns(P, tr, i);
    PrefixRuns(P, tr, i + 1);
    FilterExact(P, tr[..i], tr[i].got);
    var m, n := Run(P, tr[..i]).value, Run(P, tr[..i + 1]).value;
    assert Wanted(m.phase.goal, m.phase.packet, b) by {
      WantedFirst(m.phase.goal, m.phase.packet, b);
    }
    AnswerTaken(P, m, b, n);
    ThirdDueSends(P, n, tr[i + 1]);
  }

  lemma WantedFirst(goal: Goal, asked: seq<byte>, b: seq<byte>)
    requires goal.First? && |asked| == 40
    requires |b| >= 20 && b[0] == 0x07 && b[1] == asked[1] && b[2] == 0x28 && b[5] == 0x02
    ensures Wanted(goal, asked, b)
  {
  }

  lemma AnswerTaken(P: Params, m: Monitor, b: seq<byte>, n: Monitor)
    requires P.Ok() && m.phase.Waiting? && m.phase.goal.First? && |b| >= 20
    requires Accepted(Datagram(P.server, b), P.server, m.phase.pattern)
    requires Next(P, m, Receive(Datagram(P.server, b))) == Some(n)
    ensures n.phase == ThirdDue(m.phase.goal.link, b[16..20])
  {
    hide Matches;
  }

  lemma ThirdDueSends(P: Params, m: Monitor, a: Action)
    requires P.Ok() && m.phase.ThirdDue? && Next(P, m, a).Some?
    ensures a.Send? && a.dest == P.server && IsSecondOf(a.packet, 0x03) && a.packet[16..20] == m.phase.tail
  {
    hide Opens, Layout.LoginOf;
    if a.Send? && Opens(P, m, a.packet).Some? {
      OpensEcho(P, m, a.packet);
      OpensThirdGoal(P, m, a.packet);
    }
  }

  lemma OpensThirdGoal(P: Params, m: Monitor, packet: seq<byte>)
    requires P.Ok() && Opens(P, m, packet).Some? && m.phase.ThirdDue?
    ensures Opens(P, m, packet).value.goal.Third?
  {
    hide Beat2;
  }

  /** And for the answer to a login: code 4 or 5. */
  lemma LoginFilterExact(P: Params, got: Received)
    ensures Accepted(got, P.server, LOGIN_PATTERN) <==>
            && got.Datagram? && got.source == P.server && |got.bytes| >= 1
            && (got.bytes[0] == 0x04 || got.bytes[0] == 0x05)
  {
  }

  /** Whatever the filter lets through in a run has every byte that is read of it, so the reads stay inside
      the reply; and it never starts with the byte of a notice, so that no loop over notices goes round twice. */
  lemma FilterAdequate(P: Params, tr: seq<Action>, reply: Received)
    requires P.Ok() && Safety.Accepts(P, tr)
    requires var phase := Run(P, tr).value.phase;
             phase.Waiting? && Accepted(reply, P.server, phase.pattern)
    ensures var goal := Run(P, tr).value.phase.goal;
            |reply.bytes| >= BytesRead(goal) && reply.bytes[0] == FirstByte(goal) && reply.bytes[0] != 0x4d
  {
    ReachableGuarded(P, tr);
    hide Run;
  }

  /** The seeds and the tail are therefore bytes of the reply. */
  lemma SeedsAreRead(P: Params, tr: seq<Action>, reply: Received)
    requires P.Ok() && Safety.Accepts(P, tr)
    requires var phase := Run(P, tr).value.phase;
             phase.Waiting? && Accepted(reply, P.server, phase.pattern)
    ensures var goal, b := Run(P, tr).value.phase.goal, reply.bytes;
            && |b| >= BytesRead(goal)
            && (goal.Ask? ==> PhaseAfter(goal, Some(b)) == Seeded(b[4..8]))
            && (goal.LogoutAsk? ==> PhaseAfter(goal, Some(b)) == LogoffDue(goal.key, b[4..8]))
            && (goal.BeatSeed? ==> PhaseAfter(goal, Some(b)) == BeatReplyDue(goal.link, b[8..12]))
            && (goal.First? ==> PhaseAfter(goal, Some(b)) == ThirdDue(goal.link, b[16..20]))
  {
    FilterAdequate(P, tr, reply);
    hide Run;
  }
}
