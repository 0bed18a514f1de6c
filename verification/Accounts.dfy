/** What becomes of an account: which events write which rows, and that whoever registered and verified can log in. */
module Accounts {
  import opened Base64
  import opened PasswordCodec
  import opened RefreshTokens
  import opened Sessions
  import opened AuthService

  /** A user appears by registering, keeps address and hash, and is verified by a verification of their own. */
  lemma UserAfter(s: Auth, e: Event, u: nat)
    requires Inv(s)
    ensures var registers := e.Register? && Enabled(s, e) && e.userId == u;
      && (u in Next(s, e).users <==> u in s.users || registers)
      && (registers ==> Next(s, e).users[u] == User(e.email, e.passwordHash, false))
    ensures u in s.users ==>
      Next(s, e).users[u] == s.users[u].(
        verified := s.users[u].verified || (e.Verify? && Enabled(s, e) && s.verifications[e.token].userId == u))
  {
    hide Inv, NewChain, Append, EmailTaken;
    NamedUsers(s);
  }

  /** A verification token belongs to the registration it was drawn for and is used by a verification only. */
  lemma VerificationAfter(s: Auth, e: Event, t: string)
    ensures var drawn := e.Register? && Enabled(s, e) && e.token == t;
      && (t in Next(s, e).verifications <==> t in s.verifications || drawn)
      && (drawn ==> Next(s, e).verifications[t] == Verification(e.userId, e.expiresAt, false))
    ensures t in s.verifications ==>
      Next(s, e).verifications[t] == s.verifications[t].(used := s.verifications[t].used || (e == Verify(t) && Enabled(s, e)))
  {
    hide NewChain, Append, EmailTaken;
  }

  /** A refresh token comes from a login or from another token of the same user, and only its flag ever changes. */
  lemma TokenAfter(s: Auth, e: Event, x: string)
    ensures var (logs, trades) := (e.LoginInsert? && Enabled(s, e) && e.hash == x, e.Refresh? && Enabled(s, e) && e.issued == x);
      && (x in Next(s, e).tokens <==> x in s.tokens || logs || trades)
      && (logs ==> Next(s, e).tokens[x] == Token(s.logins[e.k], e.expiresAt, false))
      && (trades ==> Next(s, e).tokens[x] == Token(s.tokens[e.spent].userId, e.expiresAt, false))
    ensures x in s.tokens ==>
      Next(s, e).tokens[x] == s.tokens[x].(
        revoked := s.tokens[x].revoked || e == Event.Logout(x) || (e.Refresh? && Enabled(s, e) && e.spent == x))
  {
    hide NewChain, Append, EmailTaken;
  }

  // -- From the registration to the login

  /** The user `u` as registered, and the only verification token that names them. */
  ghost predicate Account(s: Auth, u: nat, email: string, passwordHash: string, token: string) {
    && u in s.users && s.users[u].email == email && s.users[u].passwordHash == passwordHash
    && token in s.verifications && s.verifications[token].userId == u
    && (forall t :: t in s.verifications && s.verifications[t].userId == u ==> t == token)
    && (s.users[u].verified <==> s.verifications[token].used)
  }

  lemma AccountStep(s: Auth, e: Event, u: nat, email: string, passwordHash: string, token: string)
    requires Inv(s) && Account(s, u, email, passwordHash, token)
    ensures Account(Next(s, e), u, email, passwordHash, token)
    ensures s.verifications[token].used ==> Next(s, e).verifications[token].used
  {
    hide Inv, Next;
    NamedUsers(s);
    UserAfter(s, e, u);
    forall t ensures t in Next(s, e).verifications && Next(s, e).verifications[t].userId == u ==> t == token {
      VerificationAfter(s, e, t);
    }
    VerificationAfter(s, e, token);
  }

  lemma NamedUsers(s: Auth)
    requires Inv(s)
    ensures forall t :: t in s.verifications ==> s.verifications[t].userId in s.users
    ensures EmailsUnique(s.users)
  {
  }

  lemma {:induction false} AccountRun(s: Auth, es: seq<Event>, u: nat, email: string, passwordHash: string, token: string)
    requires Inv(s) && Account(s, u, email, passwordHash, token)
    ensures Inv(Run(s, es)) && Account(Run(s, es), u, email, passwordHash, token)
    ensures s.verifications[token].used ==> Run(s, es).verifications[token].used
    decreases |es|
  {
    hide Inv;
    if es != [] {
      AccountStep(s, es[0], u, email, passwordHash, token);
      EventKeepsInv(s, es[0]);
      hide Next;
      AccountRun(Next(s, es[0]), es[1..], u, email, passwordHash, token);
    }
  }

  lemma Registered(s: Auth, u: nat, email: string, passwordHash: string, token: string, expiresAt: nat)
    requires Inv(s) && Enabled(s, Register(u, email, passwordHash, token, expiresAt))
    ensures Account(Next(s, Register(u, email, passwordHash, token, expiresAt)), u, email, passwordHash, token)
    ensures !Next(s, Register(u, email, passwordHash, token, expiresAt)).verifications[token].used
  {
    hide Inv;
    NamedUsers(s);
  }

  /**
   Whoever registered and verified can log in. After a registration and whatever followed, as long as its token can
   still be used, a login is told that the address is not verified; after the verification and whatever followed, it
   is let in exactly with a password that gives the same argon2 key under the stored salt, so with their own.
   */
  lemma RegisteredCanLogIn(argon2: Argon2, s: Auth, u: nat, email: string, password: seq<Byte>, salt: seq<Byte>,
                           token: string, expiresAt: nat, es: seq<Event>, more: seq<Event>, attempt: seq<Byte>)
    requires Reachable(s) && Enabled(s, Register(u, email, HashPassword(argon2, password, salt), token, expiresAt))
    requires |argon2(password, salt, Cost(1, 65536, 4), 32)| == 32
    requires Enabled(Run(Next(s, Register(u, email, HashPassword(argon2, password, salt), token, expiresAt)), es), Verify(token))
    ensures var before := Run(Next(s, Register(u, email, HashPassword(argon2, password, salt), token, expiresAt)), es);
      var after := Run(Next(before, Verify(token)), more);
      var same := argon2(attempt, salt, Cost(1, 65536, 4), 32) == argon2(password, salt, Cost(1, 65536, 4), 32);
      && Answers(argon2, before.users, email, attempt, if same then NotVerified else Invalid)
      && Answers(argon2, after.users, email, attempt, if same then Fine else Invalid)
  {
    ReachableInv(s);
    hide Reachable, Inv, HashPassword, Next, VerifyPassword;
    var hash := HashPassword(argon2, password, salt);
    var e := Register(u, email, hash, token, expiresAt);
    Registered(s, u, email, hash, token, expiresAt);
    EventKeepsInv(s, e);
    AccountRun(Next(s, e), es, u, email, hash, token);
    var before := Run(Next(s, e), es);
    hide Run;
    VerifyOfHash(argon2, password, salt, attempt);
    AnswerOf(argon2, before, u, email, hash, token, attempt);
    AccountVerified(before, u, email, hash, token);
    EventKeepsInv(before, Verify(token));
    AccountRun(Next(before, Verify(token)), more, u, email, hash, token);
    AnswerOf(argon2, Run(Next(before, Verify(token)), more), u, email, hash, token, attempt);
    hide Answers, Account;
  }

  lemma AccountVerified(s: Auth, u: nat, email: string, passwordHash: string, token: string)
    requires Inv(s) && Account(s, u, email, passwordHash, token) && Enabled(s, Verify(token))
    ensures Account(Next(s, Verify(token)), u, email, passwordHash, token) && Next(s, Verify(token)).verifications[token].used
    ensures !s.verifications[token].used
  {
    hide Inv, Next;
    AccountStep(s, Verify(token), u, email, passwordHash, token);
    VerificationAfter(s, Verify(token), token);
  }

  lemma AnswerOf(argon2: Argon2, s: Auth, u: nat, email: string, passwordHash: string, token: string, attempt: seq<Byte>)
    requires Inv(s) && Account(s, u, email, passwordHash, token)
    ensures Answers(argon2, s.users, email, attempt,
      if VerifyPassword(argon2, attempt, passwordHash) != Matches(true) then Invalid
      else if s.verifications[token].used then Fine else NotVerified)
  {
    hide Inv, VerifyPassword;
    NamedUsers(s);
  }
}
