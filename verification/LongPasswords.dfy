/** Passwords of more than 16 characters: when a run comes to a login whose behaviour is not defined, because
    the code would combine the password with a digest of 16 bytes. */
module LongPasswords {
  import opened Words
  import opened Text
  import opened Layout
  import opened RetryPolicy
  import opened Net
  import opened Beats
  import opened Session
  import opened Safety
  import opened RunLaws

  /** All templates combine the password with the digest. */
  predicate AlwaysRotated(P: Params) {
    P.cfg.rorVersion || P.cfg.jluMode
  }

  /** A password too long for the digest, with nothing wrong with the addresses. */
  predicate TooLong(P: Params) {
    |P.cfg.password| > 16 && AddressesParse(P.cfg)
  }

  // ---- At which login -------------------------------------------------------------------------

  /** With a password too long no login that rotates it is ever sent, so that the failures end there. */
  predicate FailsBounded(P: Params, m: Monitor) {
    TooLong(P) ==>
      && m.fails <= (if AlwaysRotated(P) then 0 else 3)
      && (m.phase.LoginWait? ==> !AlwaysRotated(P) && m.fails <= 2)
  }

  lemma FailsStep(P: Params, m: Monitor, a: Action, n: Monitor)
    requires P.Ok() && FailsBounded(P, m) && Next(P, m, a) == Some(n)
    ensures FailsBounded(P, n)
  {
    hide LoginOf, Opens, AddressesParse, ReplyDelay, Matches;
    if a.Send? {
      if m.phase.LoginDue? {
        LoginNeeds(P.cfg, m.phase.seed, Template(P, m), P.signed);
      } else if !m.phase.ResendDue? {
        OpensFails(P, m, a.packet);
      }
    }
  }

  lemma StartFails(P: Params)
    ensures FailsBounded(P, START)
  {
  }

  lemma {:induction false} ReachableFails(P: Params, tr: seq<Action>)
    requires P.Ok() && Safety.Accepts(P, tr)
    ensures FailsBounded(P, Run(P, tr).value)
  {
    hide Next, FailsBounded;
    if tr == [] {
      StartFails(P);
    } else {
      LastStep(P, tr);
      ReachableFails(P, tr[..|tr| - 1]);
      FailsStep(P, Run(P, tr[..|tr| - 1]).value, tr[|tr| - 1], Run(P, tr).value);
    }
  }

  /** A run is at a login that is not defined exactly if a login is due, the password is too long, and it would
      be rotated: in every login, or else after exactly three logins that the server did not accept. */
  lemma StuckIff(P: Params, tr: seq<Action>)
    requires P.Ok() && Safety.Accepts(P, tr)
    ensures Stuck(P, Run(P, tr).value) <==>
            && Run(P, tr).value.phase.LoginDue? && TooLong(P)
            && (AlwaysRotated(P) || LoginsSince(P, tr) == 3)
  {
    hide Run, LoginsSince, AwaitsLogin, AddressesParse;
    ReachableFails(P, tr);
    ReachableLogins(P, tr);
  }

  // ---- In which configurations ----------------------------------------------------------------

  /** What a caller can look at before a run: the password is too long, and either every login rotates it, or
      there are tries for a fourth login in a row. */
  predicate CanGetStuck(P: Params) {
    TooLong(P) && P.tryTimes >= if AlwaysRotated(P) then 1 else if P.eternal then 2 else 4
  }

  /** There was a try for each challenge, and there was one for each failure. */
  predicate Tried(P: Params, m: Monitor) {
    && (m.attempts >= 1 ==> More(P, m.attempts - 1))
    && (m.phase.AskDue? ==> More(P, m.attempts))
    && m.fails <= m.attempts
    && (BeforeLogin(m.phase) ==> m.fails < m.attempts)
  }

  predicate BeforeLogin(phase: Phase) {
    || ((phase.Waiting? || phase.ResendDue?) && phase.goal.Ask?)
    || phase.Seeded? || phase.LoginDue? || phase.LoginWait?
  }

  lemma TriedStep(P: Params, m: Monitor, a: Action, n: Monitor)
    requires P.Ok() && Tried(P, m) && Next(P, m, a) == Some(n)
    ensures Tried(P, n)
  {
    hide LoginOf, Opens, AddressesParse, ReplyDelay, Matches, More;
    if a.Send? && !m.phase.LoginDue? && !m.phase.ResendDue? {
      OpensShape(P, m, a.packet);
      OpensGoal(P, m, a.packet);
    }
  }

  lemma StartTried(P: Params)
    ensures Tried(P, START)
  {
  }

  lemma {:induction false} ReachableTried(P: Params, tr: seq<Action>)
    requires P.Ok() && Safety.Accepts(P, tr)
    ensures Tried(P, Run(P, tr).value)
  {
    hide Next, Tried;
    if tr == [] {
      StartTried(P);
    } else {
      LastStep(P, tr);
      ReachableTried(P, tr[..|tr| - 1]);
      TriedStep(P, Run(P, tr[..|tr| - 1]).value, tr[|tr| - 1], Run(P, tr).value);
    }
  }

  /** A run that gets stuck has such a configuration. */
  lemma StuckNeeds(P: Params, tr: seq<Action>)
    requires P.Ok() && Safety.Accepts(P, tr) && Stuck(P, Run(P, tr).value)
    ensures CanGetStuck(P)
  {
    hide Run, AddressesParse;
    ReachableTried(P, tr);
    ReachableFails(P, tr);
  }

  const ANSWER: seq<byte> := [0x02, 0x02, 0x00, 0x00, 0x00, 0x00, 0x00, 0x00]

  const ZERO_SEED: Four := [0x00, 0x00, 0x00, 0x00]

  lemma AnswerAccepted(P: Params)
    requires P.Ok()
    ensures var packet := Challenge(0x02, 0, 0, P.cfg.authVersion[0]);
            Accepted(Datagram(P.server, ANSWER), P.server, AskPattern(packet)) && FourAt(ANSWER, 4) == ZERO_SEED
  {
    ChallengeShape(0x02, 0, 0, P.cfg.authVersion[0]);
    hide Challenge;
  }

  function AskPacket(P: Params): (r: seq<byte>)
    requires P.Ok()
    ensures |r| == 20
  {
    Challenge(0x02, 0, 0, P.cfg.authVersion[0])
  }

  lemma AskSteps(P: Params, n: nat)
    requires P.Ok() && More(P, n)
    ensures Next(P, Monitor(Top, n, n), Poll(false)) == Some(Monitor(AskDue, n, n))
    ensures Next(P, Monitor(AskDue, n, n), Send(P.server, AskPacket(P), true))
            == Some(Monitor(Waiting(Ask, AskPacket(P), AskPattern(AskPacket(P)), 0), n + 1, n))
  {
    ChallengeShape(0x02, 0, 0, P.cfg.authVersion[0]);
    hide Challenge, LoginOf;
  }

  lemma AnswerSteps(P: Params, n: nat)
    requires P.Ok()
    ensures Next(P, Monitor(Waiting(Ask, AskPacket(P), AskPattern(AskPacket(P)), 0), n + 1, n),
                 Receive(Datagram(P.server, ANSWER))) == Some(Monitor(Seeded(ZERO_SEED), n + 1, n))
    ensures Next(P, Monitor(Seeded(ZERO_SEED), n + 1, n), Pause) == Some(Monitor(LoginDue(ZERO_SEED), n + 1, n))
  {
    AnswerAccepted(P);
    hide AskPacket, Accepted, LoginOf, Opens;
  }

  /** From the top of the attempt loop to the login, if there is a try left. */
  lemma ToLogin(P: Params, tr: seq<Action>, n: nat) returns (after: seq<Action>)
    requires P.Ok() && Run(P, tr) == Some(Monitor(Top, n, n)) && More(P, n)
    ensures Run(P, after) == Some(Monitor(LoginDue(ZERO_SEED), n + 1, n))
  {
    hide Next, Run, AskPacket, More;
    AskSteps(P, n);
    AnswerSteps(P, n);
    RunsOn(P, tr, Monitor(Top, n, n), Poll(false));
    var t1 := tr + [Poll(false)];
    RunsOn(P, t1, Monitor(AskDue, n, n), Send(P.server, AskPacket(P), true));
    var t2 := t1 + [Send(P.server, AskPacket(P), true)];
    var waiting := Monitor(Waiting(Ask, AskPacket(P), AskPattern(AskPacket(P)), 0), n + 1, n);
    RunsOn(P, t2, waiting, Receive(Datagram(P.server, ANSWER)));
    var t3 := t2 + [Receive(Datagram(P.server, ANSWER))];
    RunsOn(P, t3, Monitor(Seeded(ZERO_SEED), n + 1, n), Pause);
    after := t3 + [Pause];
  }

  lemma LoginSteps(P: Params, n: nat) returns (login: seq<byte>)
    requires P.Ok() && AddressesParse(P.cfg) && !Overlong(P.cfg, JluTemplate(P.cfg.jluMode, n))
    ensures Next(P, Monitor(LoginDue(ZERO_SEED), n + 1, n), Send(P.server, login, true))
            == Some(Monitor(LoginWait(ZERO_SEED), n + 1, n))
  {
    login := LoginOf(P.cfg, ZERO_SEED, JluTemplate(P.cfg.jluMode, n), P.signed).value;
    hide LoginOf, AddressesParse, JluTemplate;
  }

  lemma RefusalSteps(P: Params, n: nat)
    requires P.Ok()
    ensures Next(P, Monitor(LoginWait(ZERO_SEED), n + 1, n), Receive(Failed))
            == Some(Monitor(Refused(DEFAULT_DELAY), n + 1, n + 1))
    ensures Next(P, Monitor(Refused(DEFAULT_DELAY), n + 1, n + 1), Poll(false))
            == Some(Monitor(Delaying(DEFAULT_DELAY), n + 1, n + 1))
    ensures Next(P, Monitor(Delaying(DEFAULT_DELAY), n + 1, n + 1), Sleep(DEFAULT_DELAY))
            == Some(Monitor(Top, n + 1, n + 1))
  {
    hide LoginOf, Matches, Opens;
  }

  /** A login that the server never answers, and back to the top. */
  lemma ThroughLogin(P: Params, tr: seq<Action>, n: nat) returns (after: seq<Action>)
    requires P.Ok() && Run(P, tr) == Some(Monitor(LoginDue(ZERO_SEED), n + 1, n))
    requires AddressesParse(P.cfg) && !Overlong(P.cfg, JluTemplate(P.cfg.jluMode, n))
    ensures Run(P, after) == Some(Monitor(Top, n + 1, n + 1))
  {
    hide Next, Run, AddressesParse, Overlong, JluTemplate;
    var login := LoginSteps(P, n);
    RefusalSteps(P, n);
    RunsOn(P, tr, Monitor(LoginDue(ZERO_SEED), n + 1, n), Send(P.server, login, true));
    var t1 := tr + [Send(P.server, login, true)];
    RunsOn(P, t1, Monitor(LoginWait(ZERO_SEED), n + 1, n), Receive(Failed));
    var t2 := t1 + [Receive(Failed)];
    RunsOn(P, t2, Monitor(Refused(DEFAULT_DELAY), n + 1, n + 1), Poll(false));
    var t3 := t2 + [Poll(false)];
    RunsOn(P, t3, Monitor(Delaying(DEFAULT_DELAY), n + 1, n + 1), Sleep(DEFAULT_DELAY));
    after := t3 + [Sleep(DEFAULT_DELAY)];
  }

  /** A run up to the (n + 1)-th login. */
  lemma UpToLogin(P: Params, n: nat) returns (tr: seq<Action>)
    requires P.Ok() && AddressesParse(P.cfg) && (forall k: nat :: k <= n ==> More(P, k))
    requires forall k: nat :: k < n ==> !Overlong(P.cfg, JluTemplate(P.cfg.jluMode, k))
    ensures Run(P, tr) == Some(Monitor(LoginDue(ZERO_SEED), n + 1, n))
  {
    hide Run, Overlong, JluTemplate, More;
    if n == 0 {
      tr := AtTop(P);
      tr := ToLogin(P, tr, 0);
    } else {
      tr := UpToLogin(P, n - 1);
      assert !Overlong(P.cfg, JluTemplate(P.cfg.jluMode, n - 1)) && More(P, n);
      tr := ThroughLogin(P, tr, n - 1);
      tr := ToLogin(P, tr, n);
    }
  }

  lemma AtTop(P: Params) returns (tr: seq<Action>)
    requires P.Ok()
    ensures Run(P, tr) == Some(Monitor(Top, 0, 0))
  {
    RunsOn(P, [], START, Poll(false));
    tr := [] + [Poll(false)];
  }

  /** Some run gets stuck if and only if the configuration allows it. */
  lemma StuckReachable(P: Params)
    requires P.Ok()
    ensures CanGetStuck(P) <==> exists tr: seq<Action> :: Safety.Accepts(P, tr) && Stuck(P, Run(P, tr).value)
  {
    if CanGetStuck(P) {
      var n := if AlwaysRotated(P) then 0 else 3;
      assert forall k: nat :: k <= n ==> More(P, k);
      assert forall k: nat :: k < n ==> !JluTemplate(P.cfg.jluMode, k);
      hide Run, AddressesParse;
      var tr := UpToLogin(P, n);
      assert Safety.Accepts(P, tr) && Stuck(P, Run(P, tr).value);
    }
    if tr: seq<Action> :| Safety.Accepts(P, tr) && Stuck(P, Run(P, tr).value) {
      hide Run, CanGetStuck;
      StuckNeeds(P, tr);
    }
  }
}
