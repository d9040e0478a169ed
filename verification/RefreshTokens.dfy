/** Rotation of refresh tokens (auth_service/routes/auth.py) as a table machine.

    Requests run one at a time and new token values are fresh.  Every login opens a session,
    and a refresh continues the session of the token it accepts; sessions are only named
    here, the service does not store them. */
module RefreshTokens {
  import opened Wrappers

  datatype Developer = Developer(email: string, password: string, active: bool)

  datatype TokenRow = TokenRow(developer: nat, expires: real, revoked: bool)

  /** `session` and `accepted`, the refreshes granted so far, are history. */
  datatype State = State(now: real, developers: map<nat, Developer>, tokens: map<string, TokenRow>,
                         session: map<string, nat>, sessions: nat, accepted: seq<string>)

  const EMPTY := State(0.0, map[], map[], map[], 0, [])

  // REFRESH_EXPIRY_DAYS by default, in seconds.
  const EXPIRY: real := 2592000.0

  /** How issue_tokens goes: an exception before its commit is rolled back, one after is not. */
  datatype Issue = Issued | FailsEarly | FailsLate

  datatype Event =
    | Register(email: string, password: string, id: nat, token: string, issue: Issue)
    | Login(id: nat, email: string, password: string, token: string, issue: Issue)
    | Refresh(cookie: Option<string>, token: string, issue: Issue)
    | Logout(cookie: Option<string>)
    | SetActive(id: nat, active: bool)
    | Pass(dt: real)

  datatype Response = Tokens(token: string) | Error(status: int) | LoggedOut

  predicate HasEmail(developers: map<nat, Developer>, id: nat, email: string) {
    id in developers && developers[id].email == email
  }

  ghost predicate EmailTaken(developers: map<nat, Developer>, email: string) {
    exists id :: HasEmail(developers, id, email)
  }

  predicate Fresh(s: State, token: string) { token !in s.tokens && token != "" }

  /** issue_tokens in a transaction that has also put `developers` in place. */
  function IssueTokens(s: State, developers: map<nat, Developer>, id: nat, token: string, session: nat, issue: Issue): State {
    if issue.FailsEarly? then s
    else
      s.(developers := developers, tokens := s.tokens[token := TokenRow(id, s.now + EXPIRY, false)],
         session := s.session[token := session], sessions := if session < s.sessions then s.sessions else session + 1)
  }

  function Issuing(token: string, issue: Issue): Response { if issue.Issued? then Tokens(token) else Error(500) }

  predicate Usable(s: State, token: string) {
    token in s.tokens && !s.tokens[token].revoked && s.now <= s.tokens[token].expires
  }

  function Revoke(s: State, token: string): State
    requires token in s.tokens
  {
    s.(tokens := s.tokens[token := s.tokens[token].(revoked := true)])
  }

  /** The developer a refresh with this cookie is for. */
  predicate Acceptable(s: State, cookie: Option<string>) {
    && cookie.Some? && cookie.value != "" && Usable(s, cookie.value) && cookie.value in s.session
    && s.tokens[cookie.value].developer in s.developers && s.developers[s.tokens[cookie.value].developer].active
  }

  function Accept(s: State, t: string, token: string, issue: Issue): State
    requires t in s.tokens && t in s.session
  {
    var s1 := Revoke(s, t).(accepted := s.accepted + [t]);
    IssueTokens(s1, s1.developers, s.tokens[t].developer, token, s.session[t], issue)
  }

  ghost function Step(s: State, e: Event): State {
    match e
    case Register(email, password, id, token, issue) =>
      if EmailTaken(s.developers, email) || id in s.developers || !Fresh(s, token) then s
      else IssueTokens(s, s.developers[id := Developer(email, password, true)], id, token, s.sessions, issue)
    case Login(id, email, password, token, issue) =>
      if HasEmail(s.developers, id, email) && s.developers[id].password == password && s.developers[id].active && Fresh(s, token) then
        IssueTokens(s, s.developers, id, token, s.sessions, issue)
      else s
    case Refresh(cookie, token, issue) =>
      if Acceptable(s, cookie) && Fresh(s, token) then Accept(s, cookie.value, token, issue) else s
    case Logout(cookie) =>
      if cookie.Some? && cookie.value != "" && cookie.value in s.tokens then Revoke(s, cookie.value) else s
    case SetActive(id, active) =>
      if id in s.developers then s.(developers := s.developers[id := s.developers[id].(active := active)]) else s
    case Pass(dt) => if dt >= 0.0 then s.(now := s.now + dt) else s
  }

  ghost predicate IsRun(states: seq<State>, log: seq<Event>) {
    && |states| == |log| + 1
    && states[0] == EMPTY
    && forall i {:trigger log[i]} :: 0 <= i < |log| ==> states[i + 1] == Step(states[i], log[i])
  }

  /** `t` is a token of session `k` that has not been revoked. */
  predicate Open(s: State, k: nat, t: string) {
    t in s.tokens && t in s.session && s.session[t] == k && !s.tokens[t].revoked
  }

  /** Session `k` is over. */
  ghost predicate Closed(s: State, k: nat) {
    forall t :: !Open(s, k, t)
  }

  ghost predicate OneOpen(s: State) {
    forall k, t, t' | Open(s, k, t) && Open(s, k, t') :: t == t'
  }

  ghost predicate TokenOk(s: State, t: string) {
    t in s.tokens && t in s.session && s.session[t] < s.sessions && s.tokens[t].developer in s.developers
  }

  ghost predicate AcceptedOk(s: State) {
    && (forall i :: 0 <= i < |s.accepted| ==> s.accepted[i] in s.tokens && s.tokens[s.accepted[i]].revoked)
    && (forall i, j :: 0 <= i < j < |s.accepted| ==> s.accepted[i] != s.accepted[j])
  }

  ghost predicate EmailsUnique(s: State) {
    forall id, id', email | HasEmail(s.developers, id, email) && HasEmail(s.developers, id', email) :: id == id'
  }

  ghost predicate Inv(s: State) {
    OneOpen(s) && (forall t | t in s.tokens :: TokenOk(s, t)) && AcceptedOk(s) && EmailsUnique(s)
  }

  lemma IssuingKeeps(s: State, developers: map<nat, Developer>, id: nat, token: string, session: nat, issue: Issue)
    requires Inv(s) && Fresh(s, token) && id in developers
    requires (forall i | i in s.developers :: i in developers) && EmailsUnique(s.(developers := developers))
    requires Closed(s, session)
    ensures Inv(IssueTokens(s, developers, id, token, session, issue))
  {
    var s' := IssueTokens(s, developers, id, token, session, issue);
    if s' != s {
      forall t | t in s'.tokens ensures TokenOk(s', t) {
        if t in s.tokens { assert TokenOk(s, t); }
      }
      forall k, t, t' | Open(s', k, t) && Open(s', k, t') ensures t == t' {
        assert t != token ==> Open(s, k, t);
        assert t' != token ==> Open(s, k, t');
      }
      hide Open;
    }
  }

  lemma RevokingKeeps(s: State, token: string)
    requires Inv(s) && token in s.tokens
    ensures Inv(Revoke(s, token)) && forall k, t :: Open(Revoke(s, token), k, t) <==> Open(s, k, t) && t != token
  {
    var s' := Revoke(s, token);
    forall t | t in s'.tokens ensures TokenOk(s', t) { assert TokenOk(s, t); }
    forall k, t ensures Open(s', k, t) <==> Open(s, k, t) && t != token {
    }
    hide Open;
  }

  lemma AcceptingKeeps(s: State, t: string, token: string, issue: Issue)
    requires Inv(s) && t in s.session && Open(s, s.session[t], t) && Fresh(s, token)
    ensures Inv(Accept(s, t, token, issue))
  {
    RevokingKeeps(s, t);
    assert TokenOk(s, t);
    var k, s1 := s.session[t], Revoke(s, t);
    forall t' ensures !Open(s1, k, t') {
      assert Open(s1, k, t') ==> Open(s, k, t') && Open(s, k, t);
    }
    var s2 := s1.(accepted := s.accepted + [t]);
    assert Inv(s2) by {
      forall k, t ensures Open(s2, k, t) <==> Open(s1, k, t) { }
      forall t | t in s2.tokens ensures TokenOk(s2, t) { assert TokenOk(s1, t); }
    }
    assert forall t' :: Open(s2, k, t') <==> Open(s1, k, t');
    IssuingKeeps(s2, s2.developers, s.tokens[t].developer, token, k, issue);
  }

  lemma NewSessionIsEmpty(s: State)
    requires Inv(s)
    ensures Closed(s, s.sessions)
  {
    forall t ensures !Open(s, s.sessions, t) {
      if t in s.tokens { assert TokenOk(s, t); }
    }
  }

  lemma StepKeeps(s: State, e: Event)
    requires Inv(s)
    ensures Inv(Step(s, e))
  {
    NewSessionIsEmpty(s);
    hide Inv, OneOpen, AcceptedOk, IssueTokens;
    match e
    case Register(email, password, id, token, issue) =>
      if !EmailTaken(s.developers, email) && id !in s.developers && Fresh(s, token) {
        NewEmailIsUnique(s, id, Developer(email, password, true));
        IssuingKeeps(s, s.developers[id := Developer(email, password, true)], id, token, s.sessions, issue);
      }
    case Login(id, email, password, token, issue) =>
      if HasEmail(s.developers, id, email) && Fresh(s, token) {
        EmailsStayUnique(s);
        IssuingKeeps(s, s.developers, id, token, s.sessions, issue);
      }
    case Refresh(cookie, token, issue) =>
      if Acceptable(s, cookie) && Fresh(s, token) { AcceptingKeeps(s, cookie.value, token, issue); }
    case Logout(cookie) =>
      if cookie.Some? && cookie.value in s.tokens { RevokingKeeps(s, cookie.value); }
    case SetActive(_, _) => OthersKeep(s, e);
    case Pass(_) => OthersKeep(s, e);
  }

  lemma EmailsStayUnique(s: State)
    requires Inv(s)
    ensures EmailsUnique(s.(developers := s.developers))
  {
  }

  lemma NewEmailIsUnique(s: State, id: nat, d: Developer)
    requires Inv(s) && id !in s.developers && !EmailTaken(s.developers, d.email)
    ensures EmailsUnique(s.(developers := s.developers[id := d]))
  {
    var developers := s.developers[id := d];
    forall i, email | HasEmail(developers, i, email) ensures if i == id then email == d.email else HasEmail(s.developers, i, email) {
    }
    hide OneOpen, AcceptedOk, HasEmail;
  }

  lemma OthersKeep(s: State, e: Event)
    requires Inv(s) && (e.SetActive? || e.Pass?)
    ensures Inv(Step(s, e))
  {
    var s' := Step(s, e);
    forall t | t in s'.tokens ensures TokenOk(s', t) { assert TokenOk(s, t); }
    forall k, t ensures Open(s', k, t) <==> Open(s, k, t) { }
    forall id, email ensures HasEmail(s'.developers, id, email) <==> HasEmail(s.developers, id, email) { }
    hide Open, HasEmail;
  }

  lemma {:induction false} RunKeeps(states: seq<State>, log: seq<Event>, n: nat)
    requires IsRun(states, log) && n <= |log|
    ensures Inv(states[n])
  {
    if n > 0 {
      RunKeeps(states, log, n - 1);
      assert states[n - 1 + 1] == Step(states[n - 1], log[n - 1]);
      hide Inv, Step;
      StepKeeps(states[n - 1], log[n - 1]);
    }
  }

  /** Over every sequence of requests a session has at most one token that is not revoked, a
      token is accepted by a refresh at most once, and the developer of a token exists: the
      branch of refresh for a missing one is dead. */
  lemma TokensRotate(states: seq<State>, log: seq<Event>)
    requires IsRun(states, log)
    ensures var s := states[|log|];
            && (forall k, t, t' | Open(s, k, t) && Open(s, k, t') :: t == t')
            && (forall i, j :: 0 <= i < j < |s.accepted| ==> s.accepted[i] != s.accepted[j])
            && (forall t | t in s.tokens :: t in s.session && s.tokens[t].developer in s.developers)
  {
    hide Step, Open;
    RunKeeps(states, log, |log|);
    var s := states[|log|];
    forall t | t in s.tokens ensures t in s.session && s.tokens[t].developer in s.developers {
      assert TokenOk(s, t);
    }
  }

  /** What no request undoes: revocations, and the end of a session. */
  ghost predicate Later(s: State, s': State) {
    && s.now <= s'.now && s.sessions <= s'.sessions && s.accepted <= s'.accepted
    && (forall t | t in s.tokens && t in s.session :: t in s'.tokens && t in s'.session && s'.session[t] == s.session[t]
         && s'.tokens[t].developer == s.tokens[t].developer && s'.tokens[t].expires == s.tokens[t].expires
         && (s.tokens[t].revoked ==> s'.tokens[t].revoked))
    && (forall k: nat | k < s.sessions && Closed(s, k) :: Closed(s', k))
  }

  /** A refresh needs an open token of the session it continues. */
  lemma StepIsLater(s: State, e: Event)
    requires Inv(s)
    ensures Later(s, Step(s, e))
    ensures var s' := Step(s, e);
            s'.accepted == s.accepted || (s'.accepted == s.accepted + [s'.accepted[|s.accepted|]]
              && Usable(s, s'.accepted[|s.accepted|]) && s'.accepted[|s.accepted|] in s.session
              && Open(s, s.session[s'.accepted[|s.accepted|]], s'.accepted[|s.accepted|]))
  {
    var s' := Step(s, e);
    forall k: nat | k < s.sessions && Closed(s, k) ensures Closed(s', k) {
      forall t ensures !Open(s', k, t) {
        assert !Open(s, k, t);
        if e.Refresh? && Acceptable(s, e.cookie) { assert !Open(s, k, e.cookie.value); }
      }
    }
  }

  lemma {:induction false} RunIsLater(states: seq<State>, log: seq<Event>, i: nat, j: nat)
    requires IsRun(states, log) && i <= j <= |log|
    ensures Later(states[i], states[j])
  {
    if i < j {
      RunIsLater(states, log, i, j - 1);
      RunKeeps(states, log, j - 1);
      StepIsLater(states[j - 1], log[j - 1]);
      assert states[j - 1 + 1] == Step(states[j - 1], log[j - 1]);
      hide Step, Inv, Open;
    }
  }

  /** A refresh is granted exactly for a token that is there, not revoked and not expired at that
      time, and whose developer is active then. */
  lemma GrantedInTime(states: seq<State>, log: seq<Event>, i: nat)
    requires IsRun(states, log) && i < |log|
    ensures states[i + 1].accepted != states[i].accepted ==>
              log[i].Refresh? && log[i].cookie.Some? && states[i + 1].accepted == states[i].accepted + [log[i].cookie.value]
    ensures log[i].Refresh? && log[i].cookie.Some? && log[i].cookie.value != "" && Fresh(states[i], log[i].token) ==>
              var s, t := states[i], log[i].cookie.value;
              states[i + 1].accepted != s.accepted <==>
                && t in s.tokens && !s.tokens[t].revoked && s.now <= s.tokens[t].expires
                && s.tokens[t].developer in s.developers && s.developers[s.tokens[t].developer].active
    ensures states[i + 1].accepted != states[i].accepted ==>
              var s, t := states[i], log[i].cookie.value;
              t in s.tokens && s.now <= s.tokens[t].expires && s.tokens[t].developer in s.developers && s.developers[s.tokens[t].developer].active
  {
    RunKeeps(states, log, i);
    var s := states[i];
    if log[i].Refresh? && log[i].cookie.Some? && log[i].cookie.value in s.tokens { assert TokenOk(s, log[i].cookie.value); }
    hide OneOpen, AcceptedOk, EmailsUnique;
  }

  /** No refresh has been granted in session `k` since there were `n`. */
  ghost predicate QuietSince(s: State, n: nat, k: nat) {
    forall i :: n <= i < |s.accepted| ==> s.accepted[i] in s.session && s.session[s.accepted[i]] != k
  }

  lemma StaysQuiet(s: State, e: Event, n: nat, k: nat)
    requires Inv(s) && QuietSince(s, n, k) && n <= |s.accepted| && k < s.sessions && Closed(s, k)
    ensures QuietSince(Step(s, e), n, k)
  {
    StepIsLater(s, e);
    hide Step, Usable;
    var s' := Step(s, e);
    forall i | n <= i < |s'.accepted| ensures s'.accepted[i] in s'.session && s'.session[s'.accepted[i]] != k {
      var t := s'.accepted[i];
      if i < |s.accepted| { assert s.accepted[i] == t; } else { assert !Open(s, k, t); }
      hide Open;
    }
  }

  lemma {:induction false} ClosedStaysClosed(states: seq<State>, log: seq<Event>, i: nat, j: nat, k: nat)
    requires IsRun(states, log) && i <= j <= |log| && k < states[i].sessions && Closed(states[i], k)
    ensures Closed(states[j], k) && QuietSince(states[j], |states[i].accepted|, k)
  {
    hide Step, Closed, Inv;
    RunIsLater(states, log, i, j);
    if i < j {
      ClosedStaysClosed(states, log, i, j - 1, k);
      RunKeeps(states, log, j - 1);
      RunIsLater(states, log, i, j - 1);
      assert states[j - 1 + 1] == Step(states[j - 1], log[j - 1]);
      StaysQuiet(states[j - 1], log[j - 1], |states[i].accepted|, k);
    }
  }

  /** Revocation is permanent; and once a session has no open token, because of a logout or
      because issuing failed after the old token was revoked, it stays closed and no refresh
      is granted in it any more. */
  lemma ClosedForGood(states: seq<State>, log: seq<Event>, i: nat, j: nat, k: nat)
    requires IsRun(states, log) && i <= j <= |log|
    ensures forall t | t in states[i].tokens && states[i].tokens[t].revoked :: t in states[j].tokens && states[j].tokens[t].revoked
    ensures k < states[i].sessions && Closed(states[i], k) ==> Closed(states[j], k) && QuietSince(states[j], |states[i].accepted|, k)
  {
    hide Step, Open, OneOpen, AcceptedOk, EmailsUnique;
    RunKeeps(states, log, i);
    RunIsLater(states, log, i, j);
    forall t | t in states[i].tokens ensures t in states[i].session { assert TokenOk(states[i], t); }
    hide Inv;
    if k < states[i].sessions && Closed(states[i], k) {
      ClosedStaysClosed(states, log, i, j, k);
    }
  }

  /***** The handlers *****/

  /** What issue_tokens promises is the step of the machine. */
  lemma IssuedIs(s: State, s': State, developers: map<nat, Developer>, id: nat, token: string, k: nat, issue: Issue)
    requires token !in s.tokens && s'.now == s.now && s'.accepted == s.accepted
    requires if issue.FailsEarly? then s' == s
             else
               && s'.developers == developers && Open(s', k, token) && s'.tokens[token].developer == id && s'.tokens[token].expires == s.now + EXPIRY
               && s'.tokens - {token} == s.tokens && s'.session - {token} == s.session - {token}
               && s'.sessions == if k == s.sessions then k + 1 else s.sessions
    requires k <= s.sessions
    ensures s' == IssueTokens(s, developers, id, token, k, issue)
  {
    if !issue.FailsEarly? {
      forall t ensures t in s'.session <==> t == token || t in s.session {
        assert t != token ==> (t in s'.session - {token} <==> t in s.session - {token});
      }
      forall t | t in s.session && t != token ensures s'.session[t] == s.session[t] {
        assert (s'.session - {token})[t] == (s.session - {token})[t];
      }
      assert s'.session == s.session[token := k];
      forall t ensures t in s'.tokens <==> t == token || t in s.tokens {
        assert t != token ==> (t in s'.tokens - {token} <==> t in s.tokens);
      }
      forall t | t in s.tokens ensures s'.tokens[t] == s.tokens[t] {
        assert (s'.tokens - {token})[t] == s.tokens[t];
      }
      assert s'.tokens == s.tokens[token := TokenRow(id, s.now + EXPIRY, false)];
    }
  }

  class Service {
    var now: real
    var developers: map<nat, Developer>
    var tokens: map<string, TokenRow>
    var session: map<string, nat>
    var sessions: nat
    var accepted: seq<string>

    ghost var states: seq<State>
    ghost var log: seq<Event>

    function Now(): State
      reads this
    {
      State(now, developers, tokens, session, sessions, accepted)
    }

    ghost predicate Valid()
      reads this
    {
      |states| == |log| + 1 && IsRun(states, log) && states[|log|] == Now()
    }

    constructor ()
      ensures Valid() && Now() == EMPTY
    {
      now, developers, tokens, session, sessions, accepted := 0.0, map[], map[], map[], 0, [];
      states, log := [EMPTY], [];
    }

    /** The request just served is the event `e`. */
    ghost method Did(e: Event)
      requires |states| == |log| + 1 && IsRun(states, log) && Now() == Step(states[|log|], e)
      modifies `states, `log
      ensures Valid() && log == old(log) + [e]
    {
      hide Step;
      states, log := states + [Now()], log + [e];
    }

    /** issue_tokens: all or nothing.  Either what is pending is committed together with the
        new token, or the tables are as before; and no other token is touched. */
    method IssueFor(pending: map<nat, Developer>, id: nat, token: string, k: nat, issue: Issue) returns (response: Response)
      requires k <= sessions && Fresh(Now(), token)
      modifies `developers, `tokens, `session, `sessions
      ensures response.Tokens? <==> issue.Issued?
      ensures response.Tokens? ==> response.token == token
      ensures !response.Tokens? ==> response == Error(500)
      ensures Now() == old(Now()) <==> issue.FailsEarly?
      ensures !issue.FailsEarly? ==>
                && developers == pending && Open(Now(), k, token)
                && tokens[token].developer == id && tokens[token].expires == now + 2592000.0
                && tokens - {token} == old(tokens) && session - {token} == old(session) - {token}
                && sessions == if k == old(sessions) then k + 1 else old(sessions)
    {
      if issue.FailsEarly? { return Error(500); }
      ghost var before := tokens;
      var added := tokens[token := TokenRow(id, now + EXPIRY, false)];
      developers, tokens := pending, added;
      session := session[token := k];
      if k == sessions { sessions := sessions + 1; }
      assert tokens - {token} == before;
      if issue.FailsLate? { return Error(500); }
      return Tokens(token);
    }

    method RegisterDeveloper(email: string, password: string, id: nat, token: string, issue: Issue) returns (response: Response)
      requires Valid() && id !in developers && Fresh(Now(), token)
      modifies this
      ensures Valid()
      ensures if old(EmailTaken(developers, email)) then response == Error(400) && Now() == old(Now())
              else
                && response == Issuing(token, issue)
                && (issue.FailsEarly? ==> Now() == old(Now()))
                && (!issue.FailsEarly? ==>
                      && developers == old(developers)[id := Developer(email, password, true)]
                      && tokens == old(tokens)[token := TokenRow(id, now + 2592000.0, false)] && Open(Now(), old(sessions), token))
      ensures now == old(now) && accepted == old(accepted)
    {
      hide IsRun;
      var taken := exists i | i in developers :: HasEmail(developers, i, email);
      if taken {
        Did(Register(email, password, id, token, issue));
        return Error(400);
      }
      var pending := developers[id := Developer(email, password, true)];
      ghost var before, k := Now(), sessions;
      response := IssueFor(pending, id, token, sessions, issue);
      IssuedIs(before, Now(), pending, id, token, k, issue);
      Did(Register(email, password, id, token, issue));
    }

    method LogIn(email: string, password: string, token: string, issue: Issue) returns (response: Response, ghost id: nat)
      requires Valid() && Fresh(Now(), token)
      modifies this
      ensures Valid() && developers == old(developers)
      ensures if !old(EmailTaken(developers, email)) then response == Error(401) && Now() == old(Now())
              else
                && HasEmail(developers, id, email)
                && (if developers[id].password != password then response == Error(401) && Now() == old(Now())
                    else if !developers[id].active then response == Error(403) && Now() == old(Now())
                    else
                      && response == Issuing(token, issue) && (issue.FailsEarly? ==> Now() == old(Now()))
                      && (!issue.FailsEarly? ==>
                            tokens == old(tokens)[token := TokenRow(id, now + 2592000.0, false)] && Open(Now(), old(sessions), token)))
      ensures now == old(now) && accepted == old(accepted)
    {
      hide IsRun;
      var found := exists i | i in developers :: HasEmail(developers, i, email);
      if !found { return Error(401), 0; }
      var developer :| developer in developers && HasEmail(developers, developer, email);
      id := developer;
      if developers[developer].password != password { return Error(401), id; }
      if !developers[developer].active { return Error(403), id; }
      ghost var before, k := Now(), sessions;
      response := IssueFor(developers, developer, token, sessions, issue);
      IssuedIs(before, Now(), before.developers, developer, token, k, issue);
      Did(Login(developer, email, password, token, issue));
    }

    /** The token is revoked and that is committed before the new one is issued; `committed` says
        whether that first commit succeeds.  If it does not, the token stays open. */
    method RefreshToken(cookie: Option<string>, token: string, committed: bool, issue: Issue) returns (response: Response)
      requires Valid() && Fresh(Now(), token)
      modifies this
      ensures Valid() && developers == old(developers) && now == old(now)
      ensures cookie.Some? && cookie.value in old(tokens) ==> cookie.value in old(session) && old(tokens)[cookie.value].developer in developers
      ensures var granted :=
                && cookie.Some? && cookie.value != "" && cookie.value in old(tokens)
                && !old(tokens)[cookie.value].revoked && old(now) <= old(tokens)[cookie.value].expires
                && developers[old(tokens)[cookie.value].developer].active;
              if granted && !committed then response == Error(500) && Now() == old(Now())
              else if granted then
                && response == Issuing(token, issue)
                && accepted == old(accepted) + [cookie.value]
                && var revoked := old(tokens)[cookie.value := old(tokens)[cookie.value].(revoked := true)];
                   if issue.FailsEarly? then tokens == revoked && Closed(Now(), old(session)[cookie.value])
                   else
                     && tokens == revoked[token := TokenRow(old(tokens)[cookie.value].developer, now + 2592000.0, false)]
                     && Open(Now(), old(session)[cookie.value], token)
              else response == Error(401) && Now() == old(Now())
    {
      hide IsRun;
      RunKeeps(states, log, |log|);
      if cookie.None? || cookie.value == "" { return Error(401); }
      var t := cookie.value;
      if t !in tokens { return Error(401); }
      if tokens[t].revoked { return Error(401); }
      if tokens[t].expires < now { return Error(401); }
      assert TokenOk(Now(), t);
      var id := tokens[t].developer;
      if id !in developers {
        // Logging the missing developer's email would raise.
        assert false;
        return Error(500);
      }
      if !developers[id].active { return Error(401); }
      if !committed { return Error(500); }
      AcceptCloses(Now(), t);
      hide Inv;
      tokens := tokens[t := tokens[t].(revoked := true)];
      accepted := accepted + [t];
      ghost var before, k := Now(), session[t];
      response := IssueFor(developers, id, token, session[t], issue);
      IssuedIs(before, Now(), before.developers, id, token, k, issue);
      Did(Refresh(cookie, token, issue));
    }

    lemma AcceptCloses(s: State, t: string)
      requires Inv(s) && t in s.tokens && t in s.session && !s.tokens[t].revoked
      ensures Closed(Revoke(s, t).(accepted := s.accepted + [t]), s.session[t])
    {
      var s' := Revoke(s, t).(accepted := s.accepted + [t]);
      assert Open(s, s.session[t], t);
      forall t' ensures !Open(s', s.session[t], t') {
        assert Open(s', s.session[t], t') ==> Open(s, s.session[t], t');
      }
    }

    method LogOut(cookie: Option<string>, committed: bool) returns (response: Response)
      requires Valid()
      modifies this
      ensures Valid() && developers == old(developers) && accepted == old(accepted) && now == old(now) && session == old(session)
      ensures if cookie.Some? && cookie.value != "" && cookie.value in old(tokens) then
                if committed then
                  response == LoggedOut && tokens == old(tokens)[cookie.value := old(tokens)[cookie.value].(revoked := true)]
                else response == Error(500) && Now() == old(Now())
              else response == LoggedOut && Now() == old(Now())
    {
      hide IsRun;
      if cookie.Some? && cookie.value != "" {
        if cookie.value in tokens {
          if !committed { return Error(500); }
          tokens := tokens[cookie.value := tokens[cookie.value].(revoked := true)];
          Did(Logout(cookie));
        }
      }
      return LoggedOut;
    }
  }
}
