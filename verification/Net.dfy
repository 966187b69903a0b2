/** The network as the client sees it, and the acceptance filter of keepalive.c. */
module Net {
  import opened Words
  import opened Text

  datatype Address = Address(host: nat, port: nat)

  /** What recvfrom gives: a datagram, or a failure, which is a timeout or an error. */
  datatype Received = Datagram(source: Address, bytes: seq<byte>) | Failed

  /** Everything a run cannot choose: what arrives, whether sending succeeds, random bytes, and for how
      many looks at the stop flag it is still clear. When the arrivals are used up every recvfrom times
      out, so each environment stands for a run that ends; patience makes the flag monotone. */
  datatype Env = Env(inbox: seq<Received>, sends: seq<bool>, randoms: seq<byte>, uptime: nat, patience: nat)
  {
    /** A datagram longer than the receive buffer is cut. */
    function Arrival(k: nat): Received {
      if k >= |inbox| then Failed
      else
        match inbox[k]
        case Datagram(source, bytes) => Datagram(source, Truncate(bytes))
        case Failed => Failed
    }

    function SendWorks(k: nat): bool {
      if k < |sends| then sends[k] else true
    }

    function Random(k: nat): byte {
      if k < |randoms| then randoms[k] else 0
    }
  }

  /** What a run does that can be seen from outside. */
  datatype Action =
    | Send(dest: Address, packet: seq<byte>, ok: bool)
    | Receive(got: Received)
    | Poll(stop: bool)
    | Sleep(seconds: nat)
    | Pause
    | Close

  /** Where a packet carries two random bytes: the challenges, and both forms of the first keepalive. */
  function RandomPlace(packet: seq<byte>): (place: Option<nat>)
    ensures place.Some? ==> place.value + 2 <= |packet|
  {
    if |packet| == 20 && packet[0] == 0x01 then Some(2)
    else if (|packet| == 38 || |packet| == 42) && packet[0] == 0xff then Some(36)
    else None
  }

  /** After this trace the packet carries random bytes of its own: it is not sent again for want of an answer. */
  predicate Rolls(before: seq<Action>, packet: seq<byte>) {
    RandomPlace(packet).Some? && !(before != [] && before[|before| - 1] == Receive(Failed))
  }

  /** The random bytes that a trace has used up. */
  function Used(tr: seq<Action>): nat {
    if tr == [] then 0
    else
      var front, a := tr[..|tr| - 1], tr[|tr| - 1];
      Used(front) + (if a.Send? && Rolls(front, a.packet) then 2 else 0)
  }

  /** Such a packet has the next two. */
  predicate Rolled(env: Env, before: seq<Action>, packet: seq<byte>) {
    Rolls(before, packet) ==>
      var place := RandomPlace(packet).value;
      packet[place] == env.Random(Used(before)) && packet[place + 1] == env.Random(Used(before) + 1)
  }

  lemma UsedStep(tr: seq<Action>, a: Action)
    ensures Used(tr + [a]) == Used(tr) + (if a.Send? && Rolls(tr, a.packet) then 2 else 0)
  {
    assert (tr + [a])[..|tr|] == tr;
  }

  /** A trace tells what the environment did: its receives are the first arrivals, its sends worked as they
      do and carry its random bytes in order, and its looks at the stop flag saw it as it was. */
  ghost predicate Truthful(env: Env, tr: seq<Action>, taken: nat, sent: nat, polled: nat) {
    if tr == [] then taken == sent == polled == 0
    else
      var front := tr[..|tr| - 1];
      match tr[|tr| - 1]
      case Send(_, packet, ok) =>
        && sent > 0 && ok == env.SendWorks(sent - 1) && Rolled(env, front, packet)
        && Truthful(env, front, taken, sent - 1, polled)
      case Receive(got) =>
        taken > 0 && got == env.Arrival(taken - 1) && Truthful(env, front, taken - 1, sent, polled)
      case Poll(stop) =>
        polled > 0 && stop == (polled - 1 >= env.patience) && Truthful(env, front, taken, sent, polled - 1)
      case _ => Truthful(env, front, taken, sent, polled)
  }

  /** The counts after one more action. */
  lemma TruthfulStep(env: Env, tr: seq<Action>, a: Action, taken: nat, sent: nat, polled: nat)
    requires Truthful(env, tr, taken, sent, polled)
    requires a.Send? ==> a.ok == env.SendWorks(sent) && Rolled(env, tr, a.packet)
    requires a.Receive? ==> a.got == env.Arrival(taken)
    requires a.Poll? ==> a.stop == (polled >= env.patience)
    ensures Truthful(env, tr + [a], if a.Receive? then taken + 1 else taken, if a.Send? then sent + 1 else sent,
                     if a.Poll? then polled + 1 else polled)
  {
    hide Rolled;
    assert (tr + [a])[..|tr|] == tr;
  }

  /** A run saw the flag set exactly if it looked more often than it was clear. */
  lemma {:induction false} StopSeen(env: Env, tr: seq<Action>, taken: nat, sent: nat, polled: nat)
    requires Truthful(env, tr, taken, sent, polled)
    ensures Poll(true) in tr <==> polled > env.patience
  {
    hide Rolled;
    if tr != [] {
      var front, a := tr[..|tr| - 1], tr[|tr| - 1];
      assert tr == front + [a];
      match a
      case Send(_, _, ok) => StopSeen(env, front, taken, sent - 1, polled);
      case Receive(got) => StopSeen(env, front, taken - 1, sent, polled);
      case Poll(stop) => StopSeen(env, front, taken, sent, polled - 1);
      case _ => StopSeen(env, front, taken, sent, polled);
    }
  }

  /** Up to 1024 bytes arrive as they were sent. */
  lemma ArrivalIs(env: Env, k: nat)
    requires k < |env.inbox| && env.inbox[k].Datagram?
    ensures var d := env.inbox[k];
            && env.Arrival(k).Datagram? && env.Arrival(k).source == d.source
            && env.Arrival(k).bytes == if |d.bytes| <= 1024 then d.bytes else d.bytes[..1024]
  {
  }

  const RECEIVE_BUFFER := 1024
  const RETRY_COUNT := 3

  function Truncate(bytes: seq<byte>): (r: seq<byte>)
    ensures |r| <= RECEIVE_BUFFER
  {
    if |bytes| <= RECEIVE_BUFFER then bytes else bytes[..RECEIVE_BUFFER]
  }

  /** What the filter expects of a reply; None is DRCOM_UDP_EXPECT_ANY. */
  datatype Pattern = Pattern(
    first: Option<byte>, alternate: Option<byte>, second: Option<byte>, third: Option<byte>, fourth: Option<byte>,
    sixth: Option<byte>, minimum: nat)

  predicate ByteMatches(value: byte, expected: Option<byte>, alternate: Option<byte>) {
    expected.None? || value == expected.value || (alternate.Some? && value == alternate.value)
  }

  /** A byte that is there and as expected. */
  predicate At(packet: seq<byte>, place: nat, expected: Option<byte>) {
    expected.Some? ==> place < |packet| && packet[place] == expected.value
  }

  /** drcom_packet_matches_expected. */
  predicate Matches(packet: seq<byte>, p: Pattern) {
    && |packet| >= p.minimum
    && (p.first.Some? ==> |packet| > 0 && ByteMatches(packet[0], p.first, p.alternate))
    && At(packet, 1, p.second) && At(packet, 2, p.third) && At(packet, 3, p.fourth) && At(packet, 5, p.sixth)
  }

  /** A datagram from the server that passes the filter. */
  predicate Accepted(got: Received, server: Address, p: Pattern) {
    got.Datagram? && got.source == server && Matches(got.bytes, p)
  }

  // ---- The declarative meaning of one exchange ------------------------------------------------

  /** The number of failed receives from one arrival up to another. */
  function Failures(env: Env, start: nat, end: nat): (n: nat)
    requires start <= end
    ensures n <= end - start
    decreases end
  {
    if start == end then 0
    else Failures(env, start, end - 1) + (if env.Arrival(end - 1).Failed? then 1 else 0)
  }

  /** An exchange that starts at arrival `start` and send `sent` ends at arrival `end` and send `upTo`
      with a reply or without one. */
  ghost predicate Exchanged(env: Env, server: Address, p: Pattern, start: nat, sent: nat,
    reply: Option<seq<byte>>, end: nat, upTo: nat)
  {
    && start <= end && sent < upTo <= sent + 1 + RETRY_COUNT
    // all sends but the last one worked; nothing was accepted before the last arrival
    && (forall k :: sent <= k < upTo - 1 ==> env.SendWorks(k))
    && (forall k :: start <= k < end - 1 ==> !Accepted(env.Arrival(k), server, p))
    && (match reply
        case Some(bytes) =>
          // the last arrival is the first accepted one, and each failure before it cost one more send
          && start < end && Accepted(env.Arrival(end - 1), server, p) && bytes == env.Arrival(end - 1).bytes
          && env.SendWorks(upTo - 1) && upTo - sent == 1 + Failures(env, start, end)
        case None =>
          && (start < end ==> !Accepted(env.Arrival(end - 1), server, p))
          && (start < end ==> env.Arrival(end - 1).Failed?)
          // the fourth failure, or a send that did not work
          && (if env.SendWorks(upTo - 1) then upTo == sent + 4 && Failures(env, start, end) == 4
              else upTo - sent == 1 + Failures(env, start, end)))
  }

  lemma {:induction false} FailuresGrow(env: Env, start: nat, mid: nat, end: nat)
    requires start <= mid <= end
    ensures Failures(env, start, end) == Failures(env, start, mid) + Failures(env, mid, end)
    decreases end
  {
    if mid < end {
      FailuresGrow(env, start, mid, end - 1);
    }
  }

  /** The environment decides the exchange: two outcomes that meet the description are the same. */
  lemma ExchangeDetermined(env: Env, server: Address, p: Pattern, start: nat, sent: nat,
    r1: Option<seq<byte>>, end1: nat, sent1: nat, r2: Option<seq<byte>>, end2: nat, sent2: nat)
    requires Exchanged(env, server, p, start, sent, r1, end1, sent1)
    requires Exchanged(env, server, p, start, sent, r2, end2, sent2)
    ensures r1 == r2 && end1 == end2 && sent1 == sent2
  {
    NoEarlierEnd(env, server, p, start, sent, r1, end1, sent1, r2, end2, sent2);
    NoEarlierEnd(env, server, p, start, sent, r2, end2, sent2, r1, end1, sent1);
  }

  lemma NoEarlierEnd(env: Env, server: Address, p: Pattern, start: nat, sent: nat,
    r1: Option<seq<byte>>, end1: nat, sent1: nat, r2: Option<seq<byte>>, end2: nat, sent2: nat)
    requires Exchanged(env, server, p, start, sent, r1, end1, sent1)
    requires Exchanged(env, server, p, start, sent, r2, end2, sent2)
    ensures end2 <= end1
  {
    if end1 < end2 {
      FailuresGrow(env, start, end1, end2 - 1);
      FailuresGrow(env, start, end2 - 1, end2);
      assert false;
    }
  }

  /** Where nothing is heard but up to three failures and then an accepted reply, the exchange ends with that, and
      each failure cost one more send. */
  lemma AnsweredAfter(env: Env, server: Address, p: Pattern, start: nat, sent: nat, failures: nat)
    requires failures <= 3 && (forall k :: start <= k < start + failures ==> env.Arrival(k).Failed?)
    requires Accepted(env.Arrival(start + failures), server, p)
    requires forall k :: sent <= k <= sent + failures ==> env.SendWorks(k)
    ensures Exchanged(env, server, p, start, sent, Some(env.Arrival(start + failures).bytes), start + failures + 1,
                      sent + failures + 1)
  {
    AllFail(env, start, start + failures);
  }

  /** Four failures end it without one, after four sends. */
  lemma FourFailures(env: Env, server: Address, p: Pattern, start: nat, sent: nat)
    requires forall k :: start <= k < start + 4 ==> env.Arrival(k).Failed?
    requires forall k :: sent <= k < sent + 4 ==> env.SendWorks(k)
    ensures Exchanged(env, server, p, start, sent, None, start + 4, sent + 4)
  {
    AllFail(env, start, start + 4);
  }

  lemma {:induction false} AllFail(env: Env, start: nat, end: nat)
    requires start <= end && forall k :: start <= k < end ==> env.Arrival(k).Failed?
    ensures Failures(env, start, end) == end - start
    decreases end
  {
    if start < end {
      AllFail(env, start, end - 1);
    }
  }

  // ---- What an exchange adds to a trace -------------------------------------------------------

  predicate Carries(a: Action, server: Address, packet: seq<byte>) {
    a.Send? && a.dest == server && a.packet == packet
  }

  predicate Hears(a: Action, server: Address, p: Pattern) {
    a.Receive? && Accepted(a.got, server, p)
  }

  /** From a place on nothing but this packet is sent, first of all, and no reply has come yet. */
  ghost predicate Asking(tr: seq<Action>, from: nat, server: Address, packet: seq<byte>, p: Pattern) {
    && from <= |tr| && (from < |tr| ==> Carries(tr[from], server, packet))
    && forall x :: from <= x < |tr| ==> (tr[x].Receive? || Carries(tr[x], server, packet)) && !Hears(tr[x], server, p)
  }

  /** From a place to its end a trace is one exchange: it sends this packet to the server, only this packet and
      always the same, and it ends with the first reply that passes the filter, or without one. */
  ghost predicate Conducted(tr: seq<Action>, from: nat, server: Address, packet: seq<byte>, p: Pattern,
    reply: Option<seq<byte>>)
  {
    && from < |tr| && Carries(tr[from], server, packet)
    && (forall x :: from <= x < |tr| ==> tr[x].Receive? || Carries(tr[x], server, packet))
    && (forall x :: from <= x < |tr| - 1 ==> !Hears(tr[x], server, p))
    && (match reply
        case Some(bytes) => Hears(tr[|tr| - 1], server, p) && tr[|tr| - 1].got.bytes == bytes
        case None => !Hears(tr[|tr| - 1], server, p))
  }

  lemma AskingSend(tr: seq<Action>, from: nat, server: Address, packet: seq<byte>, p: Pattern, ok: bool)
    requires Asking(tr, from, server, packet, p)
    ensures Asking(tr + [Send(server, packet, ok)], from, server, packet, p)
  {
    hide Accepted;
  }

  lemma AskingReceive(before: seq<Action>, tr: seq<Action>, from: nat, server: Address, packet: seq<byte>, p: Pattern,
    reply: Option<seq<byte>>)
    requires Asking(before, from, server, packet, p) && from < |before| && before < tr
    requires forall x :: |before| <= x < |tr| ==> tr[x].Receive?
    requires forall x :: |before| <= x < |tr| - 1 ==> !Hears(tr[x], server, p)
    requires match reply
             case Some(bytes) => Hears(tr[|tr| - 1], server, p) && tr[|tr| - 1].got.bytes == bytes
             case None => !Hears(tr[|tr| - 1], server, p)
    ensures Conducted(tr, from, server, packet, p, reply)
    ensures reply.None? ==> Asking(tr, from, server, packet, p)
  {
    hide Accepted;
  }

  lemma AskingOut(tr: seq<Action>, from: nat, server: Address, packet: seq<byte>, p: Pattern)
    requires Asking(tr, from, server, packet, p) && from < |tr|
    ensures Conducted(tr, from, server, packet, p, None)
  {
    hide Accepted;
  }
}
