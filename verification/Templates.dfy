/** Which of the two templates the logins of a run use. */
module Templates {
  import opened Words
  import opened Settings
  import opened Layout
  import opened RetryPolicy
  import opened Net
  import opened Session
  import opened Safety
  import ReadBack
  import Ipv4

  /** A login at a place of a trace. */
  predicate LoginAt(tr: seq<Action>, i: nat) {
    i < |tr| && tr[i].Send? && IsLogin(tr[i].packet)
  }

  /** The template that the bytes of a login show. */
  predicate Shows(packet: seq<byte>, jlu: bool) {
    |packet| >= 312 && packet[174..176] == ReadBack.Mark(jlu)
  }

  lemma LoginShows(cfg: Config, seed: seq<byte>, jlu: bool, signed: bool)
    requires cfg.Fits() && LoginOf(cfg, seed, jlu, signed).Some?
    ensures Shows(LoginOf(cfg, seed, jlu, signed).value, jlu)
  {
    hide Login, ReadBack.Mark;
    ReadBack.LoginReadsTemplate(cfg, seed, Ipv4.Parse(cfg.hostIp).value, Ipv4.Parse(cfg.primaryDns).value,
                                Ipv4.Parse(cfg.dhcpServer).value, jlu, signed);
  }

  /** The template of each login of a run is the one that belongs to the number of logins since the server last
      accepted one. */
  lemma TemplateOfLogin(P: Params, tr: seq<Action>, i: nat)
    requires P.Ok() && Safety.Accepts(P, tr) && LoginAt(tr, i)
    ensures Shows(tr[i].packet, JluTemplate(P.cfg.jluMode, LoginsSince(P, tr[..i])))
  {
    hide Run, LoginsSince, LoginOf, Answered, Shows, JluTemplate;
    LoginFollowsChallenge(P, tr, i);
    var k: nat, j: nat, seed: Four :| LoginSent(P, tr, k, j, i, seed);
    LoginShows(P.cfg, seed, TemplateAt(P, tr, i), P.signed);
  }

  /** In generic mode the first three logins since an accepted one use the standard template, the fourth uses the
      JLU one, and from there on they alternate; in JLU mode all logins use the JLU template. */
  lemma TemplateSequence(P: Params, tr: seq<Action>, i: nat)
    requires P.Ok() && Safety.Accepts(P, tr) && LoginAt(tr, i)
    ensures var n := LoginsSince(P, tr[..i]);
            Shows(tr[i].packet, P.cfg.jluMode || (n >= 3 && (n - 3) % 2 == 0))
  {
    hide Run, LoginsSince, Shows;
    TemplateOfLogin(P, tr, i);
    var n := LoginsSince(P, tr[..i]);
    assert n >= 3 ==> (n % 2 != 0 <==> (n - 3) % 2 == 0);
  }

  /** No login between two places. */
  ghost predicate NoLoginBetween(tr: seq<Action>, from: nat, end: nat) {
    forall x: nat :: from <= x < end ==> !LoginAt(tr, x)
  }

  /** The server accepted the login at i before a place: a reply that grants it arrived while it was the last packet
      sent. */
  ghost predicate GrantedBefore(P: Params, tr: seq<Action>, i: nat, end: nat)
    requires end <= |tr|
  {
    exists x: nat :: i < x < end && Grants(P, tr[x]) && NoSend(tr, i + 1, x)
  }

  /** Up to the next login a run waits for an answer to this one as long as nothing else is sent. */
  lemma {:induction false} AwaitsFrom(tr: seq<Action>, i: nat, end: nat)
    requires LoginAt(tr, i) && i < end <= |tr| && NoLoginBetween(tr, i + 1, end)
    ensures AwaitsLogin(tr[..end]) <==> NoSend(tr, i + 1, end)
    decreases end
  {
    hide IsLogin;
    var front := tr[..end - 1];
    assert tr[..end] == front + [tr[end - 1]];
    if i < end - 1 {
      AwaitsFrom(tr, i, end - 1);
      assert !LoginAt(tr, end - 1);
    }
  }

  lemma {:induction false} CountBetween(P: Params, tr: seq<Action>, i: nat, end: nat)
    requires LoginAt(tr, i) && i < end <= |tr| && NoLoginBetween(tr, i + 1, end)
    ensures LoginsSince(P, tr[..end]) == if GrantedBefore(P, tr, i, end) then 0 else LoginsSince(P, tr[..i]) + 1
    decreases end
  {
    hide LoginsSince, AwaitsLogin, Grants, NoSend, IsLogin;
    var front, a := tr[..end - 1], tr[end - 1];
    assert tr[..end] == front + [a];
    LoginsSnoc(P, front, a);
    if i < end - 1 {
      CountBetween(P, tr, i, end - 1);
      AwaitsFrom(tr, i, end - 1);
      assert !LoginAt(tr, end - 1);
    }
  }

  /** From one login to the next the number goes up by one, or it starts again, and that exactly if the server
      accepted the first. */
  lemma NextLogin(P: Params, tr: seq<Action>, i: nat, next: nat)
    requires LoginAt(tr, i) && LoginAt(tr, next) && i < next && NoLoginBetween(tr, i + 1, next)
    ensures LoginsSince(P, tr[..next]) == if GrantedBefore(P, tr, i, next) then 0 else LoginsSince(P, tr[..i]) + 1
    ensures LoginsSince(P, tr[..next]) == 0 <==> GrantedBefore(P, tr, i, next)
  {
    hide LoginsSince, GrantedBefore;
    CountBetween(P, tr, i, next);
  }

  /** So in generic mode two logins in a row with none accepted in between never use the same template, once the
      three standard ones have gone out. */
  lemma TemplatesAlternate(P: Params, tr: seq<Action>, i: nat, next: nat)
    requires P.Ok() && Safety.Accepts(P, tr) && !P.cfg.jluMode
    requires LoginAt(tr, i) && LoginAt(tr, next) && i < next && NoLoginBetween(tr, i + 1, next)
    requires LoginsSince(P, tr[..next]) >= 3
    ensures exists jlu :: Shows(tr[next].packet, jlu) && Shows(tr[i].packet, !jlu)
  {
    hide Run, LoginsSince, Shows, JluTemplate, GrantedBefore;
    NextLogin(P, tr, i, next);
    TemplateOrder(LoginsSince(P, tr[..i]));
    TemplateOfLogin(P, tr, i);
    TemplateOfLogin(P, tr, next);
  }
}
