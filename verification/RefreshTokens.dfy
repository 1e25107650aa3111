/** Refresh-token rotation and password resets. A token is named by its row: what is handed out is found
    again by an injective hash. refresh takes two steps, one that reads its token and one that revokes it and issues
    the next; forgotPassword and resetPassword take two steps each, and any number of such calls may be under way.
    Every other call is one step; the parts that the database may refuse on their own carry a flag. `verified` is
    the verdict of the JWT library on signature and expiry. */
module RefreshTokens {
  import opened Wrappers

  const RESET_TOKEN_EXPIRY_MS := 15 * 60 * 1000

  datatype Token = Token(user: nat, isRevoked: bool, expiresAt: int)

  datatype Reset = Reset(user: nat, isUsed: bool, expiresAt: int)

  /** A call of refresh, forgotPassword or resetPassword between its two steps. */
  datatype Call = Rotating(token: nat) | Forgetting(user: nat) | Resetting(reset: nat, newPassword: string)

  datatype State = State(tokens: seq<Token>, resets: seq<Reset>, passwords: map<nat, string>, calls: map<nat, Call>)

  datatype Outcome =
    | Issued(token: nat)
    | ResetIssued(reset: nat)
    | Accepted
    | UnderWay
    | InvalidToken
    | UnknownToken
    | ReuseDetected
    | ExpiredToken
    | AlreadyUsed
    | BadCredentials
    | DatabaseError

  datatype Action =
    | Login(user: nat, password: string, now: int, stores: bool)
    | RefreshCheck(client: nat, token: nat, verified: bool, now: int)
    | RefreshCommit(client: nat, now: int, stores: bool)
    | Logout(token: nat)
    | LogoutAll(user: nat)
    | ForgotUpdate(client: nat, user: nat)
    | ForgotCreate(client: nat, now: int)
    | ResetCheck(client: nat, reset: nat, newPassword: string, now: int)
    | ResetCommit(client: nat, commits: bool)
    | ChangePassword(user: nat, current: string, newPassword: string, now: int, commits: bool, stores: bool)

  // ----- updates of many rows -----

  function RevokeOne(tokens: seq<Token>, t: nat): seq<Token> {
    if t < |tokens| then tokens[t := tokens[t].(isRevoked := true)] else tokens
  }

  function RevokeAll(tokens: seq<Token>, user: nat): (r: seq<Token>)
    ensures |r| == |tokens|
  {
    seq(|tokens|, i requires 0 <= i < |tokens| => tokens[i].(isRevoked := tokens[i].isRevoked || tokens[i].user == user))
  }

  function UseAll(resets: seq<Reset>, user: nat): (r: seq<Reset>)
    ensures |r| == |resets|
  {
    seq(|resets|, i requires 0 <= i < |resets| => resets[i].(isUsed := resets[i].isUsed || resets[i].user == user))
  }

  // ----- one call -----

  function Issue(s: State, user: nat, now: int, life: nat, stores: bool): (State, Outcome) {
    if stores then (s.(tokens := s.tokens + [Token(user, false, now + life)]), Issued(|s.tokens|)) else (s, DatabaseError)
  }

  /** Up to the decision to rotate. A token that is already revoked revokes all others of its user. */
  function DoPresent(s: State, client: nat, t: nat, verified: bool, now: int): (State, Outcome) {
    if client in s.calls then (s, UnderWay)
    else if !verified then (s, InvalidToken)
    else if |s.tokens| <= t then (s, UnknownToken)
    else if s.tokens[t].isRevoked then (s.(tokens := RevokeAll(s.tokens, s.tokens[t].user)), ReuseDetected)
    else if s.tokens[t].expiresAt < now then (s, ExpiredToken)
    else (s.(calls := s.calls[client := Rotating(t)]), UnderWay)
  }

  predicate IsRotating(s: State, client: nat, t: nat) {
    client in s.calls && s.calls[client] == Rotating(t)
  }

  /** The update does not look at isRevoked again. */
  function DoRotate(s: State, client: nat, now: int, life: nat, stores: bool): (State, Outcome) {
    if client !in s.calls || !s.calls[client].Rotating? || |s.tokens| <= s.calls[client].token then (s, UnderWay)
    else
      var t := s.calls[client].token;
      Issue(s.(tokens := RevokeOne(s.tokens, t), calls := s.calls - {client}), s.tokens[t].user, now, life, stores)
  }

  /** No new password is set before the token has been checked. */
  function DoCheck(s: State, client: nat, r: nat, newPassword: string, now: int): (State, Outcome) {
    if client in s.calls then (s, UnderWay)
    else if |s.resets| <= r then (s, UnknownToken)
    else if s.resets[r].isUsed then (s, AlreadyUsed)
    else if s.resets[r].expiresAt < now then (s, ExpiredToken)
    else (s.(calls := s.calls[client := Resetting(r, newPassword)]), UnderWay)
  }

  predicate IsResetting(s: State, client: nat, r: nat) {
    client in s.calls && s.calls[client].Resetting? && s.calls[client].reset == r
  }

  /** The transaction does not look at isUsed again. */
  function DoCommit(s: State, client: nat, commits: bool): (State, Outcome) {
    if client !in s.calls || !s.calls[client].Resetting? || |s.resets| <= s.calls[client].reset then (s, UnderWay)
    else
      var r, newPassword, calls := s.calls[client].reset, s.calls[client].newPassword, s.calls - {client};
      if !commits then (s.(calls := calls), DatabaseError)
      else
        var user := s.resets[r].user;
        (State(RevokeAll(s.tokens, user), s.resets[r := s.resets[r].(isUsed := true)],
               s.passwords[user := newPassword], calls), Accepted)
  }

  function DoChange(s: State, user: nat, current: string, newPassword: string, now: int,
                    commits: bool, stores: bool, life: nat): (State, Outcome)
  {
    if user !in s.passwords || s.passwords[user] != current then (s, BadCredentials)
    else if !commits then (s, DatabaseError)
    else
      Issue(s.(tokens := RevokeAll(s.tokens, user), passwords := s.passwords[user := newPassword]), user, now, life, stores)
  }

  function DoForget(s: State, client: nat, user: nat): (State, Outcome) {
    if client in s.calls then (s, UnderWay)
    else if user !in s.passwords then (s, Accepted)
    else (s.(resets := UseAll(s.resets, user), calls := s.calls[client := Forgetting(user)]), UnderWay)
  }

  predicate IsForgetting(s: State, client: nat, user: nat) {
    client in s.calls && s.calls[client] == Forgetting(user)
  }

  function DoCreate(s: State, client: nat, now: int): (State, Outcome) {
    if client !in s.calls || !s.calls[client].Forgetting? then (s, UnderWay)
    else
      (s.(resets := s.resets + [Reset(s.calls[client].user, false, now + RESET_TOKEN_EXPIRY_MS)], calls := s.calls - {client}),
       ResetIssued(|s.resets|))
  }

  function Step(s: State, a: Action, life: nat): (State, Outcome) {
    match a
    case Login(user, password, now, stores) =>
      if user in s.passwords && s.passwords[user] == password then Issue(s, user, now, life, stores) else (s, BadCredentials)
    case RefreshCheck(client, t, verified, now) => DoPresent(s, client, t, verified, now)
    case RefreshCommit(client, now, stores) => DoRotate(s, client, now, life, stores)
    case Logout(t) => (s.(tokens := RevokeOne(s.tokens, t)), Accepted)
    case LogoutAll(user) => (s.(tokens := RevokeAll(s.tokens, user)), Accepted)
    case ForgotUpdate(client, user) => DoForget(s, client, user)
    case ForgotCreate(client, now) => DoCreate(s, client, now)
    case ResetCheck(client, r, newPassword, now) => DoCheck(s, client, r, newPassword, now)
    case ResetCommit(client, commits) => DoCommit(s, client, commits)
    case ChangePassword(user, current, newPassword, now, commits, stores) =>
      DoChange(s, user, current, newPassword, now, commits, stores, life)
  }

  /** The two steps of refresh, of forgotPassword and of resetPassword, undisturbed. */
  function Refreshed(s: State, client: nat, t: nat, verified: bool, now: int, stores: bool, life: nat): (State, Outcome) {
    var (s1, told) := DoPresent(s, client, t, verified, now);
    if told.UnderWay? then DoRotate(s1, client, now, life, stores) else (s1, told)
  }

  function Forgotten(s: State, user: nat, now: int): (State, Outcome) {
    var (s1, told) := DoForget(s, 0, user);
    if told.UnderWay? then DoCreate(s1, 0, now) else (s1, told)
  }

  function ResetDone(s: State, r: nat, newPassword: string, now: int, commits: bool): (State, Outcome) {
    var (s1, told) := DoCheck(s, 0, r, newPassword, now);
    if told.UnderWay? then DoCommit(s1, 0, commits) else (s1, told)
  }

  // ----- the service -----

  class AuthService {
    const life: nat
    var tokens: seq<Token>
    var resets: seq<Reset>
    var passwords: map<nat, string>

    ghost function Snapshot(): State
      reads this
    {
      State(tokens, resets, passwords, map[])
    }

    constructor (life: nat, passwords: map<nat, string>)
      ensures this.life == life && Snapshot() == State([], [], passwords, map[])
    {
      this.life, tokens, resets, this.passwords := life, [], [], passwords;
    }

    method GenerateTokens(user: nat, now: int, stores: bool) returns (outcome: Outcome)
      modifies this`tokens
      ensures (Snapshot(), outcome) == Issue(old(Snapshot()), user, now, life, stores)
    {
      if !stores {
        return DatabaseError;
      }
      tokens := tokens + [Token(user, false, now + life)];
      return Issued(|tokens| - 1);
    }

    method RevokeAllUserRefreshTokens(user: nat)
      modifies this`tokens
      ensures tokens == RevokeAll(old(tokens), user)
    {
      tokens := RevokeAll(tokens, user);
    }

    method Login(user: nat, password: string, now: int, stores: bool) returns (outcome: Outcome)
      modifies this`tokens
      ensures (Snapshot(), outcome) == Step(old(Snapshot()), Action.Login(user, password, now, stores), life)
    {
      if user !in passwords || passwords[user] != password {
        return BadCredentials;
      }
      outcome := GenerateTokens(user, now, stores);
    }

    method Refresh(t: nat, verified: bool, now: int, stores: bool) returns (outcome: Outcome)
      modifies this`tokens
      ensures (Snapshot(), outcome) == Refreshed(old(Snapshot()), 0, t, verified, now, stores, life)
    {
      if !verified {
        return InvalidToken;
      }
      if |tokens| <= t {
        return UnknownToken;
      }
      var stored := tokens[t];
      if stored.isRevoked {
        RevokeAllUserRefreshTokens(stored.user);
        return ReuseDetected;
      }
      if stored.expiresAt < now {
        return ExpiredToken;
      }
      assert map[0 := Rotating(t)] - {0} == map[];
      tokens := tokens[t := stored.(isRevoked := true)];
      outcome := GenerateTokens(stored.user, now, stores);
    }

    method Logout(t: nat)
      modifies this`tokens
      ensures Snapshot() == Step(old(Snapshot()), Action.Logout(t), life).0
    {
      if t < |tokens| && !tokens[t].isRevoked {
        tokens := tokens[t := tokens[t].(isRevoked := true)];
      }
    }

    method LogoutAll(user: nat)
      modifies this`tokens
      ensures Snapshot() == Step(old(Snapshot()), Action.LogoutAll(user), life).0
    {
      RevokeAllUserRefreshTokens(user);
    }

    method ForgotPassword(user: nat, now: int) returns (outcome: Outcome)
      modifies this`resets
      ensures (Snapshot(), outcome) == Forgotten(old(Snapshot()), user, now)
    {
      if user !in passwords {
        return Accepted;
      }
      resets := UseAll(resets, user);
      assert map[0 := Forgetting(user)] - {0} == map[];
      resets := resets + [Reset(user, false, now + RESET_TOKEN_EXPIRY_MS)];
      return ResetIssued(|resets| - 1);
    }

    method ResetPassword(r: nat, newPassword: string, now: int, commits: bool) returns (outcome: Outcome)
      modifies this`tokens, this`resets, this`passwords
      ensures (Snapshot(), outcome) == ResetDone(old(Snapshot()), r, newPassword, now, commits)
    {
      if |resets| <= r {
        return UnknownToken;
      }
      var stored := resets[r];
      if stored.isUsed {
        return AlreadyUsed;
      }
      if stored.expiresAt < now {
        return ExpiredToken;
      }
      assert map[0 := Resetting(r, newPassword)] - {0} == map[];
      if !commits {
        return DatabaseError;
      }
      passwords := passwords[stored.user := newPassword];
      resets := resets[r := stored.(isUsed := true)];
      RevokeAllUserRefreshTokens(stored.user);
      return Accepted;
    }

    method ChangePassword(user: nat, current: string, newPassword: string, now: int, commits: bool, stores: bool)
      returns (outcome: Outcome)
      modifies this`tokens, this`passwords
      ensures (Snapshot(), outcome)
           == Step(old(Snapshot()), Action.ChangePassword(user, current, newPassword, now, commits, stores), life)
    {
      if user !in passwords || passwords[user] != current {
        return BadCredentials;
      }
      if !commits {
        return DatabaseError;
      }
      passwords := passwords[user := newPassword];
      RevokeAllUserRefreshTokens(user);
      outcome := GenerateTokens(user, now, stores);
    }
  }

  // ----- runs -----

  function Run(s: State, actions: seq<Action>, life: nat): State {
    if actions == [] then s else Step(Run(s, actions[..|actions| - 1], life), actions[|actions| - 1], life).0
  }

  /** What the caller of action `i` is told. */
  function Told(s: State, actions: seq<Action>, life: nat, i: nat): Outcome
    requires i < |actions|
  {
    Step(Run(s, actions[..i], life), actions[i], life).1
  }

  /** A new call of refresh presents a genuine token that has been revoked. */
  predicate Replays(s: State, a: Action) {
    a.RefreshCheck? && a.client !in s.calls && a.verified && a.token < |s.tokens| && s.tokens[a.token].isRevoked
  }

  /** The step is one that must leave no token of the user live: a replay of one of them, a logout everywhere, a reset
      that commits, or a change of password that knows the current one and commits. */
  predicate ShutsOut(s: State, a: Action, user: nat) {
    match a
    case RefreshCheck(_, t, _, _) => Replays(s, a) && s.tokens[t].user == user
    case LogoutAll(u) => u == user
    case ResetCommit(c, commits) =>
      commits && c in s.calls && s.calls[c].Resetting? && s.calls[c].reset < |s.resets|
      && s.resets[s.calls[c].reset].user == user
    case ChangePassword(u, current, _, _, commits, _) =>
      commits && u == user && u in s.passwords && s.passwords[u] == current
    case _ => false
  }

  /** The step ends the token: it is rotated, logged out, or its user is shut out. */
  predicate Ends(s: State, a: Action, t: nat)
    requires t < |s.tokens|
  {
    (a == Logout(t))
    || (a.RefreshCommit? && IsRotating(s, a.client, t))
    || ShutsOut(s, a, s.tokens[t].user)
  }

  lemma StepEndsIff(s: State, a: Action, t: nat, life: nat)
    requires t < |s.tokens|
    ensures var s' := Step(s, a, life).0;
            && t < |s'.tokens| && s'.tokens[t].user == s.tokens[t].user && s'.tokens[t].expiresAt == s.tokens[t].expiresAt
            && (s'.tokens[t].isRevoked <==> s.tokens[t].isRevoked || Ends(s, a, t))
  {
  }

  /** A token once issued keeps its owner, and is revoked exactly if some step since has ended it: revoked is
      for ever. */
  lemma {:induction false} RevokedIffEnded(s: State, actions: seq<Action>, life: nat, t: nat)
    requires t < |s.tokens|
    ensures var s' := Run(s, actions, life);
            && t < |s'.tokens| && s'.tokens[t].user == s.tokens[t].user && s'.tokens[t].expiresAt == s.tokens[t].expiresAt
            && (s'.tokens[t].isRevoked <==>
                  s.tokens[t].isRevoked || exists i: nat | i < |actions| :: EndsAt(s, actions, life, t, i))
  {
    hide Step;
    if actions != [] {
      var front, last := actions[..|actions| - 1], |actions| - 1;
      RevokedIffEnded(s, front, life, t);
      StepEndsIff(Run(s, front, life), actions[last], t, life);
      forall i: nat | i < |front| ensures EndsAt(s, front, life, t, i) == EndsAt(s, actions, life, t, i) {
        assert front[..i] == actions[..i];
      }
      assert actions[..last] == front;
      assert EndsAt(s, actions, life, t, last) == Ends(Run(s, front, life), actions[last], t);
    }
  }

  predicate EndsAt(s: State, actions: seq<Action>, life: nat, t: nat, i: nat)
    requires i < |actions|
  {
    t < |Run(s, actions[..i], life).tokens| && Ends(Run(s, actions[..i], life), actions[i], t)
  }

  lemma {:induction false} RunSplit(s: State, actions: seq<Action>, life: nat, i: nat)
    requires i <= |actions|
    ensures Run(Run(s, actions[..i], life), actions[i..], life) == Run(s, actions, life)
  {
    hide Step;
    if i < |actions| {
      var last := |actions| - 1;
      RunSplit(s, actions[..last], life, i);
      assert actions[..last][..i] == actions[..i] && actions[i..][..last - i] == actions[..last][i..];
    } else {
      assert actions[..i] == actions && actions[i..] == [];
    }
  }

  /** Whose call it is, as far as tokens are issued. */
  function Caller(s: State, a: Action): Option<nat> {
    match a
    case Login(user, _, _, _) => Some(user)
    case RefreshCommit(c, _, _) =>
      if c in s.calls && s.calls[c].Rotating? && s.calls[c].token < |s.tokens| then Some(s.tokens[s.calls[c].token].user)
      else None
    case ChangePassword(user, _, _, _, _, _) => Some(user)
    case _ => None
  }

  /** A token handed out is new, live and the caller's; a call that hands out none adds none. */
  lemma IssuedTokenIsFresh(s: State, a: Action, life: nat)
    ensures var (s', told) := Step(s, a, life);
            if told.Issued? then
              && told.token == |s.tokens| == |s'.tokens| - 1 && Caller(s, a).Some?
              && s'.tokens[told.token] == Token(Caller(s, a).value, false, a.now + life)
            else |s'.tokens| == |s.tokens|
  {
  }

  /** After any run from its issue on, an undisturbed refresh of a token succeeds exactly when the library verifies it, its
      life has not run out, no step since has ended it, and the new one can be stored. */
  lemma RefreshSucceedsIff(s: State, a: Action, actions: seq<Action>, life: nat, client: nat, verified: bool, later: int,
                           stores: bool)
    requires Step(s, a, life).1.Issued?
    requires var (s1, told) := Step(s, a, life); client !in Run(s1, actions, life).calls
    ensures var (s1, told) := Step(s, a, life);
      Refreshed(Run(s1, actions, life), client, told.token, verified, later, stores, life).1.Issued? <==>
        && verified && stores && later <= a.now + life
        && forall i: nat | i < |actions| :: !EndsAt(s1, actions, life, told.token, i)
  {
    hide Run, Step;
    IssuedTokenIsFresh(s, a, life);
    var (s1, told) := Step(s, a, life);
    RevokedIffEnded(s1, actions, life, told.token);
  }

  // ----- how often a refresh token refreshes -----

  /** The token is revoked and no call that has read it is left. */
  predicate Dead(s: State, t: nat) {
    t < |s.tokens| && s.tokens[t].isRevoked && forall c | c in s.calls :: !IsRotating(s, c, t)
  }

  lemma DeadStays(s: State, a: Action, life: nat, t: nat)
    requires Dead(s, t)
    ensures Dead(Step(s, a, life).0, t)
  {
    hide UseAll;
    StepEndsIff(s, a, t, life);
  }

  /** Action i completes a refresh of the token: a new pair is handed out for it. */
  predicate RotatesAt(s: State, actions: seq<Action>, life: nat, i: nat, t: nat) {
    i < |actions| && actions[i].RefreshCommit? && IsRotating(Run(s, actions[..i], life), actions[i].client, t)
    && Told(s, actions, life, i).Issued?
  }

  lemma {:induction false} DeadForGood(s: State, actions: seq<Action>, life: nat, t: nat, i: nat)
    requires Dead(s, t) && i <= |actions|
    ensures Dead(Run(s, actions[..i], life), t)
  {
    hide Step, Dead;
    if i == 0 {
      assert actions[..0] == [];
    } else {
      DeadForGood(s, actions, life, t, i - 1);
      RunTo(s, actions, life, i - 1);
      DeadStays(Run(s, actions[..i - 1], life), actions[i - 1], life, t);
    }
  }

  /** A revoked token still buys a pair, in some continuation, exactly if a call that has read it before is under way. */
  lemma RevokedRefreshesIff(s: State, t: nat, life: nat)
    requires t < |s.tokens| && s.tokens[t].isRevoked
    ensures (exists actions: seq<Action>, i: nat :: RotatesAt(s, actions, life, i, t))
            <==> exists d | d in s.calls :: IsRotating(s, d, t)
  {
    if d :| d in s.calls && IsRotating(s, d, t) {
      var commit := [RefreshCommit(d, 0, true)];
      assert commit[..0] == [] && Run(s, [], life) == s;
      assert RotatesAt(s, commit, life, 0, t);
    } else {
      assert Dead(s, t);
      forall actions: seq<Action>, i: nat ensures !RotatesAt(s, actions, life, i, t) {
        if i < |actions| {
          DeadForGood(s, actions, life, t, i);
        }
      }
    }
  }

  /** A token that has bought a pair buys another one, in some continuation, exactly if another refresh that has read it is
      under way. */
  lemma RefreshesAgainIff(s: State, client: nat, t: nat, now: int, stores: bool, life: nat)
    requires IsRotating(s, client, t) && t < |s.tokens|
    ensures var s' := Step(s, RefreshCommit(client, now, stores), life).0;
      (exists actions: seq<Action>, i: nat :: RotatesAt(s', actions, life, i, t))
      <==> exists d | d in s.calls :: d != client && IsRotating(s, d, t)
  {
    hide Run, RotatesAt;
    var s' := Step(s, RefreshCommit(client, now, stores), life).0;
    RevokedRefreshesIff(s', t, life);
    if d :| d in s.calls && d != client && IsRotating(s, d, t) {
      assert IsRotating(s', d, t);
    }
  }

  /** After a detected reuse, a logout everywhere, a reset or a change of password, a token the user held before refreshes
      again, in some continuation, exactly if a refresh that has read it is under way. */
  lemma ShutOutForGoodIff(s: State, a: Action, t: nat, life: nat)
    requires t < |s.tokens| && ShutsOut(s, a, s.tokens[t].user)
    ensures var s' := Step(s, a, life).0;
      (exists actions: seq<Action>, i: nat :: RotatesAt(s', actions, life, i, t))
      <==> exists d | d in s.calls :: IsRotating(s, d, t)
  {
    hide Run, RotatesAt, UseAll;
    var s' := Step(s, a, life).0;
    StepEndsIff(s, a, t, life);
    RevokedRefreshesIff(s', t, life);
    assert forall d: nat :: IsRotating(s', d, t) <==> IsRotating(s, d, t);
  }

  /** The step reads the token while another refresh that has read it is under way. */
  predicate ReadsTwice(s: State, a: Action, t: nat) {
    a.RefreshCheck? && a.token == t && exists c | c in s.calls :: IsRotating(s, c, t)
  }

  predicate NoRefreshOverlap(s: State, actions: seq<Action>, life: nat, t: nat) {
    forall i | 0 <= i < |actions| :: !ReadsTwice(Run(s, actions[..i], life), actions[i], t)
  }

  predicate OneRotating(s: State, t: nat) {
    forall c, d | c in s.calls && d in s.calls && IsRotating(s, c, t) && IsRotating(s, d, t) :: c == d
  }

  lemma StepKeepsOneRotating(s: State, a: Action, life: nat, t: nat)
    requires OneRotating(s, t) && !ReadsTwice(s, a, t)
    ensures OneRotating(Step(s, a, life).0, t)
  {
    hide RevokeAll, RevokeOne, UseAll;
  }

  lemma {:induction false} RunKeepsOneRotating(s: State, actions: seq<Action>, life: nat, t: nat, i: nat)
    requires OneRotating(s, t) && NoRefreshOverlap(s, actions, life, t) && i <= |actions|
    ensures OneRotating(Run(s, actions[..i], life), t)
  {
    hide Step, OneRotating, ReadsTwice;
    if i == 0 {
      assert actions[..0] == [];
    } else {
      RunKeepsOneRotating(s, actions, life, t, i - 1);
      RunTo(s, actions, life, i - 1);
      StepKeepsOneRotating(Run(s, actions[..i - 1], life), actions[i - 1], life, t);
    }
  }

  /** So when refreshes of one token never overlap, it buys at most one new pair. */
  lemma EachTokenRefreshesOnce(s: State, actions: seq<Action>, life: nat, t: nat, i: nat, j: nat)
    requires OneRotating(s, t) && NoRefreshOverlap(s, actions, life, t)
    requires i < j && RotatesAt(s, actions, life, i, t)
    ensures !RotatesAt(s, actions, life, j, t)
  {
    hide RevokeAll, UseAll, Run;
    if j < |actions| {
      RunKeepsOneRotating(s, actions, life, t, i);
      var after := Run(s, actions[..i + 1], life);
      RunTo(s, actions, life, i);
      assert Dead(after, t);
      RunSplit(s, actions[..j], life, i + 1);
      assert actions[..j][..i + 1] == actions[..i + 1];
      DeadForGood(after, actions[..j][i + 1..], life, t, j - i - 1);
      assert actions[..j][i + 1..][..j - i - 1] == actions[..j][i + 1..];
    }
  }

  /** Overlapping ones break it: two refreshes of one session leave two. */
  lemma TwoRefreshesLeaveTwoSessions(user: nat, expiresAt: int, now: int, life: nat)
    requires now <= expiresAt
    ensures var s := State([Token(user, false, expiresAt)], [], map[], map[]);
      var actions := [RefreshCheck(1, 0, true, now), RefreshCheck(2, 0, true, now),
                      RefreshCommit(1, now, true), RefreshCommit(2, now, true)];
      && RotatesAt(s, actions, life, 2, 0) && RotatesAt(s, actions, life, 3, 0)
      && Live(s.tokens, user) == 1 && Live(Run(s, actions, life).tokens, user) == 2
  {
    hide Live, RevokeAll, UseAll;
    var first, next := Token(user, false, expiresAt), Token(user, false, now + life);
    var s := State([first], [], map[], map[]);
    var actions := [RefreshCheck(1, 0, true, now), RefreshCheck(2, 0, true, now),
                    RefreshCommit(1, now, true), RefreshCommit(2, now, true)];
    assert actions[..0] == [] && actions[..4] == actions;
    RunTo(s, actions, life, 0);
    RunTo(s, actions, life, 1);
    RunTo(s, actions, life, 2);
    RunTo(s, actions, life, 3);
    var gone := first.(isRevoked := true);
    assert Run(s, actions, life).tokens == [] + [gone] + [next] + [next];
    NobodyLives(user);
    LivePush([], first, user);
    LivePush([], gone, user);
    LivePush([] + [gone], next, user);
    LivePush([] + [gone] + [next], next, user);
    assert [] + [first] == [first];
  }

  lemma NobodyLives(user: nat)
    ensures Live([], user) == 0
  {
  }

  // ----- passwords -----

  function NewPassword(s: State, a: Action): string {
    if a.ChangePassword? then a.newPassword
    else if a.ResetCommit? && a.client in s.calls && s.calls[a.client].Resetting? then s.calls[a.client].newPassword
    else ""
  }

  /** The step sets the user's password. */
  predicate SetsPassword(s: State, a: Action, user: nat) {
    (a.ResetCommit? || a.ChangePassword?) && ShutsOut(s, a, user)
  }

  lemma PasswordsMove(s: State, a: Action, user: nat, life: nat)
    requires user in s.passwords
    ensures var s' := Step(s, a, life).0;
      user in s'.passwords
      && s'.passwords[user] == if SetsPassword(s, a, user) then NewPassword(s, a) else s.passwords[user]
  {
    hide RevokeAll, RevokeOne, UseAll;
  }

  lemma {:induction false} PasswordStands(s: State, actions: seq<Action>, life: nat, user: nat)
    requires user in s.passwords
    requires forall i | 0 <= i < |actions| :: !SetsPassword(Run(s, actions[..i], life), actions[i], user)
    ensures var s' := Run(s, actions, life); user in s'.passwords && s'.passwords[user] == s.passwords[user]
  {
    hide Step, SetsPassword;
    if actions != [] {
      var front, last := actions[..|actions| - 1], |actions| - 1;
      forall i | 0 <= i < last ensures !SetsPassword(Run(s, front[..i], life), front[i], user) {
        assert front[..i] == actions[..i] && !SetsPassword(Run(s, actions[..i], life), actions[i], user);
      }
      PasswordStands(s, front, life, user);
      assert !SetsPassword(Run(s, actions[..last], life), actions[last], user);
      PasswordsMove(Run(s, front, life), actions[last], user, life);
    }
  }

  /** After a reset or a change, and until the next one, the new password logs in and no other does. */
  lemma LoginSucceedsIff(s: State, a: Action, actions: seq<Action>, life: nat, user: nat, password: string, later: int)
    requires SetsPassword(s, a, user)
    requires var s1 := Step(s, a, life).0;
      forall i | 0 <= i < |actions| :: !SetsPassword(Run(s1, actions[..i], life), actions[i], user)
    ensures Step(Run(Step(s, a, life).0, actions, life), Login(user, password, later, true), life).1.Issued?
            <==> password == NewPassword(s, a)
  {
    hide Run, RevokeAll;
    var s1 := Step(s, a, life).0;
    assert user in s1.passwords && s1.passwords[user] == NewPassword(s, a);
    PasswordStands(s1, actions, life, user);
  }

  // ----- rotation keeps the number of sessions -----

  function Live(tokens: seq<Token>, user: nat): nat {
    if tokens == [] then 0
    else
      var last := tokens[|tokens| - 1];
      Live(tokens[..|tokens| - 1], user) + if last.user == user && !last.isRevoked then 1 else 0
  }

  lemma LivePush(tokens: seq<Token>, token: Token, user: nat)
    ensures Live(tokens + [token], user) == Live(tokens, user) + if token.user == user && !token.isRevoked then 1 else 0
  {
    assert (tokens + [token])[..|tokens|] == tokens;
  }

  lemma {:induction false} LiveRevokeOne(tokens: seq<Token>, t: nat, user: nat)
    requires t < |tokens|
    ensures Live(RevokeOne(tokens, t), user)
         == Live(tokens, user) - if tokens[t].user == user && !tokens[t].isRevoked then 1 else 0
  {
    var before := tokens[..|tokens| - 1];
    if t == |tokens| - 1 {
      assert RevokeOne(tokens, t)[..|tokens| - 1] == before;
    } else {
      LiveRevokeOne(before, t, user);
      assert RevokeOne(tokens, t)[..|tokens| - 1] == RevokeOne(before, t);
    }
  }

  lemma {:induction false} LiveRevokeAll(tokens: seq<Token>, user: nat, other: nat)
    ensures Live(RevokeAll(tokens, user), other) == if other == user then 0 else Live(tokens, other)
  {
    if tokens != [] {
      LiveRevokeAll(tokens[..|tokens| - 1], user, other);
      assert RevokeAll(tokens, user)[..|tokens| - 1] == RevokeAll(tokens[..|tokens| - 1], user);
    }
  }

  /** Completing a refresh ends the session it has read, if nobody else has, and opens the new one; a replay closes all
      sessions of the token's owner; otherwise nothing changes, and other users are never touched. */
  lemma RefreshAndSessions(s: State, a: Action, life: nat, user: nat)
    requires a.RefreshCheck? || (a.RefreshCommit? && a.client in s.calls && s.calls[a.client].Rotating?
                                 && s.calls[a.client].token < |s.tokens|)
    ensures var (s', told) := Step(s, a, life);
      var token := if a.RefreshCheck? then a.token else s.calls[a.client].token;
      var own := token < |s.tokens| && s.tokens[token].user == user;
      Live(s'.tokens, user) ==
        if a.RefreshCheck? then (if Replays(s, a) && own then 0 else Live(s.tokens, user))
        else Live(s.tokens, user) - (if own && !s.tokens[token].isRevoked then 1 else 0)
                                  + (if own && told.Issued? then 1 else 0)
  {
    hide Live;
    var t := if a.RefreshCheck? then a.token else s.calls[a.client].token;
    if t < |s.tokens| {
      LiveRevokeAll(s.tokens, s.tokens[t].user, user);
      LiveRevokeOne(s.tokens, t, user);
      LivePush(RevokeOne(s.tokens, t), Token(s.tokens[t].user, false, a.now + life), user);
    }
  }

  /** A replay, and nothing else, is answered as one; it leaves everything but the tokens alone. */
  lemma ReplayIsDetectedIff(s: State, a: Action, life: nat)
    requires a.RefreshCheck?
    ensures var (s', told) := Step(s, a, life);
      && (told.ReuseDetected? <==> Replays(s, a))
      && s'.resets == s.resets && s'.passwords == s.passwords && (Replays(s, a) ==> s'.calls == s.calls)
      && (!Replays(s, a) ==> s'.tokens == s.tokens)
  {
    hide RevokeAll;
  }

  /** After any run from its issue on, presenting a genuine token is detected as a reuse exactly if some step has
      ended it: then no session of its owner is left, and nobody else loses one. */
  lemma ReplayClosesSessions(s: State, a: Action, actions: seq<Action>, life: nat, client: nat, later: int, stores: bool,
                             user: nat)
    requires Step(s, a, life).1.Issued?
    requires client !in Run(Step(s, a, life).0, actions, life).calls
    ensures var (s1, told) := Step(s, a, life);
      var s2 := Run(s1, actions, life);
      var (s3, answer) := Refreshed(s2, client, told.token, true, later, stores, life);
      && (answer.ReuseDetected? <==> exists i: nat | i < |actions| :: EndsAt(s1, actions, life, told.token, i))
      && (answer.ReuseDetected? ==>
            Live(s3.tokens, user) == if Caller(s, a) == Some(user) then 0 else Live(s2.tokens, user))
  {
    hide Run, Live, RevokeAll, EndsAt;
    IssuedTokenIsFresh(s, a, life);
    var (s1, told) := Step(s, a, life);
    RevokedIffEnded(s1, actions, life, told.token);
    var s2, check := Run(s1, actions, life), RefreshCheck(client, told.token, true, later);
    ReplayIsDetectedIff(s2, check, life);
    RefreshAndSessions(s2, check, life, user);
  }

  /** So an undisturbed refresh that succeeds keeps every user's number of sessions. */
  lemma RefreshKeepsSessions(s: State, client: nat, t: nat, verified: bool, now: int, stores: bool, life: nat, user: nat)
    requires client !in s.calls && Refreshed(s, client, t, verified, now, stores, life).1.Issued?
    ensures Live(Refreshed(s, client, t, verified, now, stores, life).0.tokens, user) == Live(s.tokens, user)
  {
    hide Live;
    var s1 := DoPresent(s, client, t, verified, now).0;
    RefreshAndSessions(s1, RefreshCommit(client, now, stores), life, user);
  }

  /** After a change of password the current session is the only one; after a reset there is none. */
  lemma PasswordAndSessions(s: State, a: Action, life: nat, user: nat)
    requires ShutsOut(s, a, user)
    ensures var (s', told) := Step(s, a, life);
            Live(s'.tokens, user) == if a.ChangePassword? && told.Issued? then 1 else 0
  {
    hide Live, RevokeAll;
    LiveRevokeAll(s.tokens, user, user);
    if a.ChangePassword? {
      LivePush(RevokeAll(s.tokens, user), Token(user, false, a.now + life), user);
    }
  }

  // ----- at most one reset token of a user can be used -----

  predicate OneUnused(resets: seq<Reset>) {
    forall i, j | 0 <= i < j < |resets| :: resets[i].user == resets[j].user ==> resets[i].isUsed || resets[j].isUsed
  }

  predicate HasUnused(resets: seq<Reset>, user: nat) {
    exists r | 0 <= r < |resets| :: resets[r].user == user && !resets[r].isUsed
  }

  /** The step creates a reset token for a user who has an unused one: a call that ran since its update has
      created that. */
  predicate SecondToken(s: State, a: Action) {
    a.ForgotCreate? && a.client in s.calls && s.calls[a.client].Forgetting? && HasUnused(s.resets, s.calls[a.client].user)
  }

  lemma StepKeepsOneUnusedIff(s: State, a: Action, life: nat)
    requires OneUnused(s.resets)
    ensures OneUnused(Step(s, a, life).0.resets) <==> !SecondToken(s, a)
  {
    hide RevokeAll, RevokeOne;
    if SecondToken(s, a) {
      var r :| 0 <= r < |s.resets| && s.resets[r].user == s.calls[a.client].user && !s.resets[r].isUsed;
      var after := Step(s, a, life).0.resets;
      assert !after[r].isUsed && !after[|s.resets|].isUsed && after[r].user == after[|s.resets|].user;
    }
  }

  predicate OneUnusedAt(s: State, actions: seq<Action>, life: nat, i: nat)
    requires i <= |actions|
  {
    OneUnused(Run(s, actions[..i], life).resets)
  }

  predicate SecondTokenAt(s: State, actions: seq<Action>, life: nat, i: nat)
    requires i < |actions|
  {
    SecondToken(Run(s, actions[..i], life), actions[i])
  }

  lemma RunTo(s: State, actions: seq<Action>, life: nat, i: nat)
    requires i < |actions|
    ensures Run(s, actions[..i + 1], life) == Step(Run(s, actions[..i], life), actions[i], life).0
  {
    hide Step;
    assert actions[..i + 1][..i] == actions[..i];
  }

  lemma {:induction false} OneUnusedUpTo(s: State, actions: seq<Action>, life: nat, n: nat)
    requires OneUnused(s.resets) && n <= |actions|
    ensures (forall i: nat | i <= n :: OneUnusedAt(s, actions, life, i)) <==> forall i: nat | i < n :: !SecondTokenAt(s, actions, life, i)
  {
    hide Step, OneUnused, SecondToken;
    if n == 0 {
      assert actions[..0] == [];
    } else {
      OneUnusedUpTo(s, actions, life, n - 1);
      RunTo(s, actions, life, n - 1);
      if OneUnusedAt(s, actions, life, n - 1) {
        StepKeepsOneUnusedIff(Run(s, actions[..n - 1], life), actions[n - 1], life);
        assert OneUnusedAt(s, actions, life, n) <==> !SecondTokenAt(s, actions, life, n - 1);
      }
    }
  }

  /** At every point of a run a user has at most one unused reset token exactly if no call creates one while another
      unused one is there. */
  lemma OneUnusedResetIff(s: State, actions: seq<Action>, life: nat)
    requires OneUnused(s.resets)
    ensures (forall i: nat | i <= |actions| :: OneUnusedAt(s, actions, life, i))
            <==> forall i: nat | i < |actions| :: !SecondTokenAt(s, actions, life, i)
  {
    OneUnusedUpTo(s, actions, life, |actions|);
  }

  /** The step starts a forgotPassword while another one of the user is under way. */
  predicate ForgetsTwice(s: State, a: Action) {
    a.ForgotUpdate? && exists c | c in s.calls :: s.calls[c] == Forgetting(a.user)
  }

  predicate NoForgotOverlap(s: State, actions: seq<Action>, life: nat) {
    forall i | 0 <= i < |actions| :: !ForgetsTwice(Run(s, actions[..i], life), actions[i])
  }

  /** At most one call is under way for a user, and it has used up all the user's tokens. */
  predicate ForgotSerial(s: State) {
    && OneUnused(s.resets)
    && (forall c, d | c in s.calls && d in s.calls && s.calls[c].Forgetting? && s.calls[c] == s.calls[d] :: c == d)
    && (forall c | c in s.calls && s.calls[c].Forgetting? :: !HasUnused(s.resets, s.calls[c].user))
  }

  lemma UnusedAfter(s: State, a: Action, life: nat, user: nat)
    ensures HasUnused(Step(s, a, life).0.resets, user) ==>
              HasUnused(s.resets, user) || (a.ForgotCreate? && IsForgetting(s, a.client, user))
    ensures a.ForgotUpdate? && a.user == user && Step(s, a, life).0.calls != s.calls ==> !HasUnused(Step(s, a, life).0.resets, user)
  {
    hide RevokeAll, RevokeOne;
    var s' := Step(s, a, life).0;
    if r :| 0 <= r < |s'.resets| && s'.resets[r].user == user && !s'.resets[r].isUsed {
      if r < |s.resets| {
        assert s.resets[r].user == user && !s.resets[r].isUsed;
      }
    }
  }

  lemma StepKeepsForgotSerial(s: State, a: Action, life: nat)
    requires ForgotSerial(s) && !ForgetsTwice(s, a)
    ensures ForgotSerial(Step(s, a, life).0)
  {
    hide RevokeAll, RevokeOne, UseAll, HasUnused, OneUnused;
    StepKeepsOneUnusedIff(s, a, life);
    var s' := Step(s, a, life).0;
    forall c | c in s'.calls && s'.calls[c].Forgetting? ensures !HasUnused(s'.resets, s'.calls[c].user) {
      UnusedAfter(s, a, life, s'.calls[c].user);
    }
  }

  /** So when requests of one user never overlap, the user never has two unused reset tokens. */
  lemma {:induction false} OneUnusedReset(s: State, actions: seq<Action>, life: nat)
    requires ForgotSerial(s) && NoForgotOverlap(s, actions, life)
    ensures ForgotSerial(Run(s, actions, life))
  {
    hide Step, ForgotSerial, ForgetsTwice;
    if actions != [] {
      var front, last := actions[..|actions| - 1], |actions| - 1;
      forall i | 0 <= i < |front| ensures !ForgetsTwice(Run(s, front[..i], life), front[i]) {
        assert front[..i] == actions[..i] && !ForgetsTwice(Run(s, actions[..i], life), actions[i]);
      }
      OneUnusedReset(s, front, life);
      assert !ForgetsTwice(Run(s, actions[..last], life), actions[last]);
      StepKeepsForgotSerial(Run(s, front, life), actions[last], life);
    }
  }

  /** Overlapping ones break it: both update, then both create. */
  lemma TwoRequestsLeaveTwoTokens(user: nat, password: string, now: int, life: nat)
    ensures var s := State([], [], map[user := password], map[]);
      var s' := Run(s, [ForgotUpdate(1, user), ForgotUpdate(2, user), ForgotCreate(1, now), ForgotCreate(2, now)], life);
      |s'.resets| == 2 && forall r | 0 <= r < 2 :: s'.resets[r].user == user && !s'.resets[r].isUsed
  {
    var s := State([], [], map[user := password], map[]);
    var actions := [ForgotUpdate(1, user), ForgotUpdate(2, user), ForgotCreate(1, now), ForgotCreate(2, now)];
    assert actions[..0] == [] && actions[..4] == actions;
    RunTo(s, actions, life, 0);
    RunTo(s, actions, life, 1);
    RunTo(s, actions, life, 2);
    RunTo(s, actions, life, 3);
  }

  // ----- how often a reset token resets -----

  lemma UsedStays(s: State, a: Action, life: nat)
    ensures var s' := Step(s, a, life).0;
      |s.resets| <= |s'.resets| && forall r | 0 <= r < |s.resets| ::
        s'.resets[r].user == s.resets[r].user && (s.resets[r].isUsed ==> s'.resets[r].isUsed)
  {
    hide RevokeAll, RevokeOne;
  }

  /** The token is used and no call that has checked it is left. */
  predicate Spent(s: State, r: nat) {
    r < |s.resets| && s.resets[r].isUsed && forall c | c in s.calls :: !IsResetting(s, c, r)
  }

  lemma SpentStays(s: State, a: Action, life: nat, r: nat)
    requires Spent(s, r)
    ensures Spent(Step(s, a, life).0, r)
  {
    hide RevokeAll, RevokeOne, UseAll;
    UsedStays(s, a, life);
  }

  /** Action i completes a reset with the token. */
  predicate ResetsAt(s: State, actions: seq<Action>, life: nat, i: nat, r: nat) {
    i < |actions| && actions[i].ResetCommit? && IsResetting(Run(s, actions[..i], life), actions[i].client, r)
    && Told(s, actions, life, i).Accepted?
  }

  lemma {:induction false} SpentForGood(s: State, actions: seq<Action>, life: nat, r: nat, i: nat)
    requires Spent(s, r) && i <= |actions|
    ensures Spent(Run(s, actions[..i], life), r)
  {
    hide Step, Spent;
    if i == 0 {
      assert actions[..0] == [];
    } else {
      SpentForGood(s, actions, life, r, i - 1);
      RunTo(s, actions, life, i - 1);
      SpentStays(Run(s, actions[..i - 1], life), actions[i - 1], life, r);
    }
  }

  /** After a call has reset a password with a token, the token can reset again, in some continuation, exactly if another
      call that has checked it is still under way. */
  lemma ResetsAgainIff(s: State, client: nat, r: nat, life: nat)
    requires IsResetting(s, client, r) && r < |s.resets|
    ensures var s' := Step(s, ResetCommit(client, true), life).0;
      (exists actions: seq<Action>, i: nat :: ResetsAt(s', actions, life, i, r))
      <==> exists d | d in s.calls :: d != client && IsResetting(s, d, r)
  {
    hide RevokeAll;
    var s' := Step(s, ResetCommit(client, true), life).0;
    if d :| d in s.calls && d != client && IsResetting(s, d, r) {
      var again := [ResetCommit(d, true)];
      assert again[..0] == [] && Run(s', [], life) == s';
      assert ResetsAt(s', again, life, 0, r);
    } else {
      assert Spent(s', r);
      forall actions: seq<Action>, i: nat ensures !ResetsAt(s', actions, life, i, r) {
        if i < |actions| {
          SpentForGood(s', actions, life, r, i);
        }
      }
    }
  }

  /** The step checks the token while another call that has checked it is under way. */
  predicate ChecksTwice(s: State, a: Action, r: nat) {
    a.ResetCheck? && a.reset == r && exists c | c in s.calls :: IsResetting(s, c, r)
  }

  predicate NoResetOverlap(s: State, actions: seq<Action>, life: nat, r: nat) {
    forall i | 0 <= i < |actions| :: !ChecksTwice(Run(s, actions[..i], life), actions[i], r)
  }

  predicate OneResetting(s: State, r: nat) {
    forall c, d | c in s.calls && d in s.calls && IsResetting(s, c, r) && IsResetting(s, d, r) :: c == d
  }

  lemma StepKeepsOneResetting(s: State, a: Action, life: nat, r: nat)
    requires OneResetting(s, r) && !ChecksTwice(s, a, r)
    ensures OneResetting(Step(s, a, life).0, r)
  {
    hide RevokeAll, RevokeOne, UseAll;
  }

  lemma {:induction false} RunKeepsOneResetting(s: State, actions: seq<Action>, life: nat, r: nat, i: nat)
    requires OneResetting(s, r) && NoResetOverlap(s, actions, life, r) && i <= |actions|
    ensures OneResetting(Run(s, actions[..i], life), r)
  {
    hide Step, OneResetting, ChecksTwice;
    if i == 0 {
      assert actions[..0] == [];
    } else {
      RunKeepsOneResetting(s, actions, life, r, i - 1);
      RunTo(s, actions, life, i - 1);
      StepKeepsOneResetting(Run(s, actions[..i - 1], life), actions[i - 1], life, r);
    }
  }

  /** So when resets with one token never overlap, it resets at most once. */
  lemma EachResetTokenResetsOnce(s: State, actions: seq<Action>, life: nat, r: nat, i: nat, j: nat)
    requires OneResetting(s, r) && NoResetOverlap(s, actions, life, r)
    requires i < j && ResetsAt(s, actions, life, i, r)
    ensures !ResetsAt(s, actions, life, j, r)
  {
    hide RevokeAll, RevokeOne, UseAll, Run;
    if j < |actions| {
      RunKeepsOneResetting(s, actions, life, r, i);
      var after := Run(s, actions[..i + 1], life);
      RunTo(s, actions, life, i);
      assert Spent(after, r);
      RunSplit(s, actions[..j], life, i + 1);
      assert actions[..j][..i + 1] == actions[..i + 1];
      SpentForGood(after, actions[..j][i + 1..], life, r, j - i - 1);
      assert actions[..j][i + 1..][..j - i - 1] == actions[..j][i + 1..];
    }
  }

  /** The step uses the token up: a request of its user, or a reset with it. */
  predicate Uses(s: State, a: Action, r: nat)
    requires r < |s.resets|
  {
    (a.ForgotUpdate? && a.client !in s.calls && a.user in s.passwords && s.resets[r].user == a.user)
    || (a.ResetCommit? && a.commits && IsResetting(s, a.client, r))
  }

  predicate UsesAt(s: State, actions: seq<Action>, life: nat, r: nat, i: nat)
    requires i < |actions|
  {
    r < |Run(s, actions[..i], life).resets| && Uses(Run(s, actions[..i], life), actions[i], r)
  }

  lemma StepUsesIff(s: State, a: Action, life: nat, r: nat)
    requires r < |s.resets|
    ensures var s' := Step(s, a, life).0;
      && r < |s'.resets| && s'.resets[r].user == s.resets[r].user && s'.resets[r].expiresAt == s.resets[r].expiresAt
      && (s'.resets[r].isUsed <==> s.resets[r].isUsed || Uses(s, a, r))
  {
    hide RevokeAll, RevokeOne;
  }

  lemma {:induction false} UsedIffUsedUp(s: State, actions: seq<Action>, life: nat, r: nat)
    requires r < |s.resets|
    ensures var s' := Run(s, actions, life);
      && r < |s'.resets| && s'.resets[r].user == s.resets[r].user && s'.resets[r].expiresAt == s.resets[r].expiresAt
      && (s'.resets[r].isUsed <==> s.resets[r].isUsed || exists i: nat | i < |actions| :: UsesAt(s, actions, life, r, i))
  {
    hide Step, Uses;
    if actions != [] {
      var front, last := actions[..|actions| - 1], |actions| - 1;
      UsedIffUsedUp(s, front, life, r);
      StepUsesIff(Run(s, front, life), actions[last], life, r);
      forall i: nat | i < |front| ensures UsesAt(s, front, life, r, i) == UsesAt(s, actions, life, r, i) {
        assert front[..i] == actions[..i];
      }
      assert UsesAt(s, actions, life, r, last) == Uses(Run(s, front, life), actions[last], r);
    }
  }

  /** After any run from its creation on, a reset token passes the check exactly if fifteen minutes are not over and neither
      a later request of its user nor a reset has used it up. */
  lemma ResetTokenPassesIff(s: State, creator: nat, now: int, actions: seq<Action>, life: nat, client: nat,
                            newPassword: string, later: int)
    requires creator in s.calls && s.calls[creator].Forgetting?
    requires client !in Run(Step(s, ForgotCreate(creator, now), life).0, actions, life).calls
    ensures var r, s1 := |s.resets|, Step(s, ForgotCreate(creator, now), life).0;
      IsResetting(Step(Run(s1, actions, life), ResetCheck(client, r, newPassword, later), life).0, client, r) <==>
        later <= now + 15 * 60 * 1000 && forall i: nat | i < |actions| :: !UsesAt(s1, actions, life, r, i)
  {
    hide Run;
    var s1 := Step(s, ForgotCreate(creator, now), life).0;
    UsedIffUsedUp(s1, actions, life, |s.resets|);
  }
}
