/** The use cases of the auth service on its three tables. */
module AuthService {
  import opened Prelude
  import opened RefreshTokens
  import opened PasswordCodec
  import opened Base64

  datatype AuthError =
    | Fine | Invalid | NotVerified | TokenNotFound | TokenUsed | TokenExpired | TakenEmail | BadEmail | WeakPassword | Broken

  /** Whom an access token is issued for, and the raw refresh token that comes with it. */
  datatype TokenPair = TokenPair(userId: nat, email: string, refreshToken: string)

  const MinPasswordLen := 8

  predicate TouchesLogin(e: Event, k: nat) {
    (e.LoginRead? && e.k == k) || (e.LoginInsert? && e.k == k) || (e.LoginDrop? && e.k == k)
  }

  /** A login between its statements is left alone, and its user stays verified. */
  lemma {:induction false} ForeignKeepsLogin(s: Auth, env: seq<Event>, k: nat)
    requires Inv(s) && k in s.logins && forall e :: e in env ==> !TouchesLogin(e, k)
    ensures Inv(Run(s, env)) && k in Run(s, env).logins && Run(s, env).logins[k] == s.logins[k]
    ensures s.now <= Run(s, env).now
    decreases |env|
  {
    hide Inv;
    if env != [] {
      assert env[0] in env;
      EventKeepsInv(s, env[0]);
      ForeignStepKeepsLogin(s, env[0], k);
      ForeignKeepsLogin(Next(s, env[0]), env[1..], k);
    }
  }

  lemma ForeignStepKeepsLogin(s: Auth, e: Event, k: nat)
    requires k in s.logins && !TouchesLogin(e, k)
    ensures k in Next(s, e).logins && Next(s, e).logins[k] == s.logins[k] && s.now <= Next(s, e).now
  {
  }

  lemma {:induction false} RunMore(s: Auth, es: seq<Event>, fs: seq<Event>)
    ensures Run(s, es + fs) == Run(Run(s, es), fs)
    decreases |es|
  {
    if es == [] {
      assert es + fs == fs;
    } else {
      assert (es + fs)[1..] == es[1..] + fs;
      RunMore(Next(s, es[0]), es[1..], fs);
    }
  }

  lemma RunOne(s: Auth, e: Event)
    ensures Run(s, [e]) == Next(s, e)
  {
    assert [e][1..] == [];
  }

  /** One login from its two statements, with everybody else in between. */
  lemma LoginTrace(s: Auth, first: Event, env: seq<Event>, last: Event)
    ensures Run(s, [first] + env + [last]) == Next(Run(Next(s, first), env), last)
  {
    hide Next;
    RunOne(s, first);
    RunMore(s, [first], env);
    RunMore(s, [first] + env, [last]);
    RunOne(Run(s, [first] + env), last);
  }

  class AuthStore {
    const calm: bool
    const hashToken: string -> string
    const argon2: Argon2
    var users: map<nat, User>
    var verifications: map<string, Verification>
    var tokens: map<string, Token>
    var now: nat
    var outbox: seq<(string, string)>      // verification events: address and token
    ghost var logins: map<nat, nat>
    ghost var h: History

    ghost function S(): Auth
      reads this
    {
      Auth(users, verifications, tokens, now, logins, h)
    }

    ghost predicate Valid()
      reads this
    {
      Inv(S())
    }

    constructor (calm: bool, hashToken: string -> string, argon2: Argon2)
      ensures Valid() && S() == Init
      ensures this.calm == calm && this.hashToken == hashToken && this.argon2 == argon2
    {
      this.calm, this.hashToken, this.argon2 := calm, hashToken, argon2;
      users, verifications, tokens, now, outbox, logins, h :=
        Init.users, Init.verifications, Init.tokens, 0, [], map[], Init.h;
      new;
      InitInv();
    }

    method Fails() returns (fails: bool)
      ensures calm ==> !fails
    {
      var b := *;
      fails := b && !calm;
    }

    /**
     Trades a token for a new one of the same user, in one transaction. It succeeds only if the token is known,
     not revoked and not expired, and then the old one is revoked and the new one is live; on every error the
     tables are as before, except that a commit whose answer was lost took effect. `drawn` is what the random
     source gives.
     */
    method Refresh(rawToken: string, drawn: Option<string>, ttl: nat)
      returns (err: AuthError, pair: TokenPair, ghost done: bool)
      requires Valid()
      modifies this`tokens, this`h
      ensures Valid()
      ensures done ==>
        drawn.Some? && Enabled(old(S()), Trade(rawToken, drawn, ttl)) && S() == Next(old(S()), Trade(rawToken, drawn, ttl))
      ensures !done ==> S() == old(S())
      ensures err == Fine ==> done && hashToken(rawToken) in old(tokens)
      ensures err == Fine ==> pair.userId == old(tokens)[hashToken(rawToken)].userId && pair.refreshToken == drawn.value
      ensures err == Fine ==> pair.userId in users && pair.email == users[pair.userId].email
      ensures err == Fine || err == Invalid || err == Broken
      ensures err == Invalid ==> !Redeemable(old(S()), hashToken(rawToken))
      ensures done ==> Traded(old(tokens), tokens, hashToken(rawToken), hashToken(drawn.value), now + ttl)
      ensures calm && drawn.Some? && hashToken(drawn.value) !in old(tokens) ==>
        var (spent, was) := (hashToken(rawToken), old(tokens));
        err == if spent in was && !was[spent].revoked && now <= was[spent].expiresAt then Fine else Invalid
    {
      hide Inv, Next, Traded, Enabled;
      pair, done := TokenPair(0, "", ""), false;
      var issued := if drawn.Some? then Some(hashToken(drawn.value)) else None;
      var stored;
      err, stored, done := TradeToken(hashToken(rawToken), issued, now + ttl);
      if err == Fine {
        pair := TokenPair(stored.userId, users[stored.userId].email, drawn.value);
      }
    }

    /** The read, the checks and the transaction, on hashes. */
    method TradeToken(spent: string, issued: Option<string>, expiresAt: nat)
      returns (err: AuthError, stored: Token, ghost done: bool)
      requires Valid()
      modifies this`tokens, this`h
      ensures Valid() && (err == Fine || err == Invalid || err == Broken)
      ensures done ==>
        && issued.Some?
        && Enabled(old(S()), Event.Refresh(spent, issued.value, expiresAt))
        && S() == Next(old(S()), Event.Refresh(spent, issued.value, expiresAt))
        && Traded(old(tokens), tokens, spent, issued.value, expiresAt)
      ensures !done ==> S() == old(S())
      ensures err == Fine ==> done && spent in old(tokens) && stored == old(tokens)[spent] && stored.userId in users
      ensures err == Invalid ==> !Redeemable(old(S()), spent)
      ensures calm && issued.Some? && issued.value !in old(tokens) ==>
        var was := old(tokens);
        err == if spent in was && !was[spent].revoked && now <= was[spent].expiresAt then Fine else Invalid
    {
      hide Inv, Next, Traded, Enabled;
      TokenUsers(S());
      done := false;
      err, stored := Redeem(spent);
      if err != Fine {
        return err, stored, done;
      }
      var fails := Fails();
      if fails || issued.None? {
        return Broken, stored, done;
      }
      err, done := WriteTrade(spent, issued.value, stored, expiresAt);
    }

    /** The token as stored, if it can be redeemed. */
    method Redeem(spent: string) returns (err: AuthError, stored: Token)
      ensures err == Fine || err == Invalid || err == Broken
      ensures err == Fine ==> spent in tokens && stored == tokens[spent] && Redeemable(S(), spent)
      ensures err == Fine ==> !stored.revoked && now <= stored.expiresAt
      ensures err == Invalid ==>
        !(spent in tokens && tokens[spent].userId in users && !tokens[spent].revoked && now <= tokens[spent].expiresAt)
      ensures calm ==> err != Broken
    {
      stored := Token(0, 0, true);
      var fails := Fails();
      if fails {
        return Broken, stored;
      }
      if spent !in tokens || tokens[spent].userId !in users {
        return Invalid, stored;
      }
      stored := tokens[spent];
      err := if stored.revoked || now > stored.expiresAt then Invalid else Fine;
    }

    /** The transaction that revokes the one and inserts the other. */
    method WriteTrade(spent: string, issued: string, stored: Token, expiresAt: nat) returns (err: AuthError, ghost done: bool)
      requires Valid() && Redeemable(S(), spent) && stored == tokens[spent]
      modifies this`tokens, this`h
      ensures Valid() && (err == Fine || err == Broken) && (err == Fine ==> done)
      ensures done ==>
        && Enabled(old(S()), Event.Refresh(spent, issued, expiresAt))
        && S() == Next(old(S()), Event.Refresh(spent, issued, expiresAt))
        && Traded(old(tokens), tokens, spent, issued, expiresAt)
      ensures !done ==> S() == old(S())
      ensures calm && issued !in old(tokens) ==> err == Fine
    {
      hide Inv, Next;
      done := false;
      // what the transaction writes is nobody's until it commits
      var tokens' := Revoke(tokens, spent);
      if issued in tokens' {
        return Broken, done;
      }
      tokens' := tokens'[issued := Token(stored.userId, expiresAt, false)];
      var fails := Fails();
      if fails {
        return Broken, done;
      }
      EventKeepsInv(S(), Event.Refresh(spent, issued, expiresAt));
      TradeTables(S(), spent, issued, expiresAt);
      h := Next(S(), Event.Refresh(spent, issued, expiresAt)).h;
      tokens, done := tokens', true;
      var answerLost := Fails();
      err := if answerLost then Broken else Fine;
    }

    ghost function Trade(rawToken: string, drawn: Option<string>, ttl: nat): Event
      requires drawn.Some?
      reads this`now
    {
      Event.Refresh(hashToken(rawToken), hashToken(drawn.value), now + ttl)
    }

    /** Revokes a token if it is live; the caller is not told which. */
    method Logout(rawToken: string) returns (err: AuthError, ghost done: bool)
      requires Valid()
      modifies this`tokens, this`h
      ensures Valid() && (err == Fine ==> done) && (calm ==> err == Fine)
      ensures S() == if done then Next(old(S()), Event.Logout(hashToken(rawToken))) else old(S())
      ensures done ==> !Live(tokens, hashToken(rawToken))
      ensures done ==>
        var (hash, was) := (hashToken(rawToken), old(tokens));
        tokens == if hash in was then was[hash := was[hash].(revoked := true)] else was
    {
      hide Inv;
      done := false;
      var fails := Fails();
      if fails {
        return Broken, done;
      }
      var hash := hashToken(rawToken);
      EventKeepsInv(S(), Event.Logout(hash));
      h := Next(S(), Event.Logout(hash)).h;
      tokens, done := Revoke(tokens, hash), true;
      var answerLost := Fails();
      err := if answerLost then Broken else Fine;
    }

    /** Uses a verification token once, before its expiry, and verifies its user in the same transaction. */
    method VerifyEmail(token: string) returns (err: AuthError, ghost done: bool)
      requires Valid()
      modifies this`verifications, this`users, this`h
      ensures Valid()
      ensures done ==> Enabled(old(S()), Verify(token)) && S() == Next(old(S()), Verify(token))
      ensures !done ==> S() == old(S())
      ensures err == Fine ==> done
      ensures err == TokenNotFound ==> token !in verifications
      ensures err == TokenUsed ==> token in verifications && verifications[token].used && !done
      ensures err == TokenExpired ==> token in verifications && !verifications[token].used && now > verifications[token].expiresAt
      ensures calm ==>
        err == if token !in old(verifications) then TokenNotFound
               else if old(verifications)[token].used then TokenUsed
               else if now > old(verifications)[token].expiresAt then TokenExpired
               else Fine
      ensures done ==> Verified(old(users), users, old(verifications), verifications, token)
    {
      hide Inv, Next, Verified;
      VerificationUsers(S());
      done := false;
      var fails := Fails();
      if fails {
        return Broken, done;
      }
      if token !in verifications {
        return TokenNotFound, done;
      }
      var v := verifications[token];
      if v.used {
        return TokenUsed, done;
      }
      if now > v.expiresAt {
        return TokenExpired, done;
      }
      fails := Fails();
      if fails {
        return Broken, done;
      }
      err, done := Use(token);
    }

    /** The transaction that uses the token and verifies its user. */
    method Use(token: string) returns (err: AuthError, ghost done: bool)
      requires Valid() && Enabled(S(), Verify(token)) && verifications[token].userId in users
      modifies this`verifications, this`users, this`h
      ensures Valid() && done && S() == Next(old(S()), Verify(token))
      ensures (err == Fine || err == Broken) && (calm ==> err == Fine)
      ensures Verified(old(users), users, old(verifications), verifications, token)
    {
      hide Inv, Next;
      var v := verifications[token];
      EventKeepsInv(S(), Verify(token));
      VerifyTables(S(), token);
      h := Next(S(), Verify(token)).h;
      verifications := verifications[token := v.(used := true)];
      users := users[v.userId := users[v.userId].(verified := true)];
      done := true;
      var answerLost := Fails();
      err := if answerLost then Broken else Fine;
    }

    /**
     Creates an unverified user, its verification token and the event that mails it, all or nothing. `email` is
     the normalised address, or None if it is not one; identifiers, salt and token are what is drawn.
     */
    method Register(email: Option<string>, password: seq<Byte>, id: nat, salt: Option<seq<Byte>>, drawn: Option<string>, ttl: nat)
      returns (err: AuthError, ghost done: bool)
      requires Valid()
      modifies this`users, this`verifications, this`outbox
      ensures Valid()
      ensures done ==> email.Some? && salt.Some? && drawn.Some? && |password| >= 8
      ensures done ==>
        var e := Event.Register(id, email.value, HashPassword(argon2, password, salt.value), drawn.value, now + ttl);
        Enabled(old(S()), e) && S() == Next(old(S()), e) && outbox == old(outbox) + [(email.value, drawn.value)]
      ensures !done ==> S() == old(S()) && outbox == old(outbox)
      ensures err == Fine ==> done
      ensures err == BadEmail <==> email.None?
      ensures err == WeakPassword <==> email.Some? && |password| < 8
      ensures err == TakenEmail ==> email.Some? && EmailTaken(users, email.value) && !done
      ensures done ==>
        && id !in old(users) && drawn.value !in old(verifications)
        && users == old(users)[id := User(email.value, HashPassword(argon2, password, salt.value), false)]
        && verifications == old(verifications)[drawn.value := Verification(id, now + ttl, false)]
      ensures calm && email.Some? && |password| >= 8 && salt.Some? && drawn.Some? && id !in old(users) && drawn.value !in old(verifications) ==>
        err == if exists u :: u in old(users) && old(users)[u].email == email.value then TakenEmail else Fine
    {
      hide Inv, HashPassword;
      done := false;
      if email.None? {
        return BadEmail, done;
      }
      if |password| < MinPasswordLen {
        return WeakPassword, done;
      }
      var fails := Fails();
      if fails || salt.None? || drawn.None? {
        return Broken, done;
      }
      var passwordHash := HashPassword(argon2, password, salt.value);
      if exists u :: u in users && users[u].email == email.value {
        return TakenEmail, done;
      }
      fails := Fails();
      if fails || id in users || drawn.value in verifications {
        return Broken, done;
      }
      ghost var e := Event.Register(id, email.value, passwordHash, drawn.value, now + ttl);
      EventKeepsInv(S(), e);
      users := users[id := User(email.value, passwordHash, false)];
      verifications := verifications[drawn.value := Verification(id, now + ttl, false)];
      outbox := outbox + [(email.value, drawn.value)];
      done := true;
      var answerLost := Fails();
      err := if answerLost then Broken else Fine;
    }

    /** Everybody else, between the two statements of the login `k`. */
    method Yield(ghost k: nat) returns (ghost env: seq<Event>)
      requires Valid() && k in logins
      modifies this
      ensures Valid() && S() == Run(old(S()), env) && (forall e :: e in env ==> !TouchesLogin(e, k))
      ensures k in logins && logins[k] == old(logins)[k] && (calm ==> env == [] && S() == old(S()))
    {
      env := [];
      ForeignKeepsLogin(S(), env, k);
    }

    /** The reading half of a login: the user, if the password matches and the address is verified. */
    method Authenticate(email: Option<string>, password: seq<Byte>) returns (err: AuthError, u: nat)
      requires EmailsUnique(users)
      ensures err == Fine ==>
        email.Some? && Admits(argon2, users, email.value, password, u) && u in users && users[u].verified
      ensures err == NotVerified ==> email.Some? && u in users && users[u].email == email.value && !users[u].verified
      ensures err == Invalid && email.Some? && EmailTaken(users, email.value) ==>
        && u in users && users[u].email == email.value
        && VerifyPassword(argon2, password, users[u].passwordHash) != Matches(true)
      ensures err == Fine || err == NotVerified || err == Invalid || err == Broken
      ensures email.None? ==> err == Invalid
      ensures calm && email.Some? ==> Answers(argon2, users, email.value, password, err)
    {
      hide VerifyPassword;
      u := 0;
      if email.None? {
        return Invalid, u;
      }
      var fails := Fails();
      if fails {
        return Broken, u;
      }
      if !exists x :: x in users && users[x].email == email.value {
        return Invalid, u;
      }
      u :| u in users && users[u].email == email.value;
      if VerifyPassword(argon2, password, users[u].passwordHash) != Matches(true) {
        return Invalid, u;
      }
      err := if users[u].verified then Fine else NotVerified;
    }

    /**
     Reads the user and inserts a token in two statements. A login that succeeds read a verified user whose stored
     hash the password matches, and starts a new chain for that user.
     */
    method Login(email: Option<string>, password: seq<Byte>, drawn: Option<string>, ttl: nat, ghost k: nat)
      returns (err: AuthError, pair: TokenPair, ghost trace: seq<Event>)
      requires Valid() && k !in logins
      modifies this
      ensures Valid() && S() == Run(old(S()), trace)
      ensures err == Fine ==>
        email.Some? && pair.email == email.value && Admits(argon2, old(users), email.value, password, pair.userId)
      ensures err == Fine ==> drawn.Some? && pair.refreshToken == drawn.value && Live(tokens, hashToken(drawn.value))
      ensures err == Fine ==>
        && |trace| >= 2 && trace[0] == LoginRead(k, pair.userId)
        && trace[|trace| - 1] == LoginInsert(k, hashToken(drawn.value), now + ttl)
        && (forall i :: 0 < i < |trace| - 1 ==> !TouchesLogin(trace[i], k))
      ensures err == Invalid || err == NotVerified ==> trace == []
      ensures calm && drawn.Some? && hashToken(drawn.value) !in old(tokens) ==>
        if email.None? then err == Invalid else Answers(argon2, old(users), email.value, password, err)
      ensures calm && err == Fine ==>
        users == old(users) && tokens == old(tokens)[hashToken(drawn.value) := Token(pair.userId, now + ttl, false)]
      ensures err == Fine ==> hashToken(drawn.value) in tokens && tokens[hashToken(drawn.value)] == Token(pair.userId, now + ttl, false)
    {
      hide Inv, VerifyPassword, Run, Next, Answers, Admits, EmailsUnique, Enabled, Live;
      OneUserEach(S());
      pair, trace := TokenPair(0, "", ""), [];
      RunNothing(S());
      var e, u := Authenticate(email, password);
      if e != Fine {
        return e, pair, trace;
      }
      err, trace := OpenSession(u, drawn, ttl, k);
      if err == Fine {
        pair := TokenPair(u, email.value, drawn.value);
      }
    }

    /** A login whose user is known: it remembers the user, and inserts the token. */
    method OpenSession(u: nat, drawn: Option<string>, ttl: nat, ghost k: nat) returns (err: AuthError, ghost trace: seq<Event>)
      requires Valid() && k !in logins && u in users && users[u].verified
      modifies this
      ensures Valid() && S() == Run(old(S()), trace) && (err == Fine || err == Broken)
      ensures err == Fine ==>
        && drawn.Some? && Live(tokens, hashToken(drawn.value))
        && |trace| >= 2 && trace[0] == LoginRead(k, u)
        && trace[|trace| - 1] == LoginInsert(k, hashToken(drawn.value), now + ttl)
        && (forall i :: 0 < i < |trace| - 1 ==> !TouchesLogin(trace[i], k))
      ensures err == Fine ==> hashToken(drawn.value) in tokens && tokens[hashToken(drawn.value)] == Token(u, now + ttl, false)
      ensures calm ==> (err == Fine <==> drawn.Some? && hashToken(drawn.value) !in old(tokens))
      ensures calm && err == Fine ==>
        users == old(users) && tokens == old(tokens)[hashToken(drawn.value) := Token(u, now + ttl, false)]
    {
      hide Inv, Run, Next, Live;
      ghost var s0 := S();
      ReadUser(s0, k, u);
      logins := logins[k := u];
      ghost var env, last;
      err, env, last := InsertToken(u, drawn, ttl, k);
      LoginTrace(s0, LoginRead(k, u), env, last);
      trace := [LoginRead(k, u)] + env + [last];
    }

    /** The writing half of a login, after whatever others did since the user was read. */
    method InsertToken(u: nat, drawn: Option<string>, ttl: nat, ghost k: nat)
      returns (err: AuthError, ghost env: seq<Event>, ghost last: Event)
      requires Valid() && k in logins && logins[k] == u
      modifies this
      ensures Valid() && S() == Next(Run(old(S()), env), last) && (forall e :: e in env ==> !TouchesLogin(e, k))
      ensures err == Fine || err == Broken
      ensures err == Fine ==>
        drawn.Some? && Live(tokens, hashToken(drawn.value)) && last == LoginInsert(k, hashToken(drawn.value), now + ttl)
      ensures err == Broken ==>
        last == LoginDrop(k) || (drawn.Some? && last == LoginInsert(k, hashToken(drawn.value), now + ttl))
      ensures err == Fine ==> hashToken(drawn.value) in tokens && tokens[hashToken(drawn.value)] == Token(u, now + ttl, false)
      ensures calm ==> (err == Fine <==> drawn.Some? && hashToken(drawn.value) !in old(tokens))
      ensures calm && err == Fine ==>
        users == old(users) && tokens == old(tokens)[hashToken(drawn.value) := Token(u, now + ttl, false)]
    {
      hide Inv, Run, Next;
      env := Yield(k);
      var fails := Fails();
      if fails || drawn.None? || hashToken(drawn.value) in tokens {
        last := LoginDrop(k);
        DropLogin(S(), k);
        logins := logins - {k};
        return Broken, env, last;
      }
      var hash := hashToken(drawn.value);
      last := LoginInsert(k, hash, now + ttl);
      InsertLogin(S(), k, hash, now + ttl);
      h := NewChain(h, hash);
      tokens, logins := tokens[hash := Token(u, now + ttl, false)], logins - {k};
      var answerLost := Fails();
      err := if answerLost then Broken else Fine;
    }
  }

  /** The user `u` has that address, has verified it, and the password matches. */
  predicate Admits(argon2: Argon2, users: map<nat, User>, email: string, password: seq<Byte>, u: nat) {
    && u in users && users[u].email == email && users[u].verified
    && VerifyPassword(argon2, password, users[u].passwordHash) == Matches(true)
  }

  /** What a login answers to an address and a password. */
  ghost predicate Answers(argon2: Argon2, users: map<nat, User>, email: string, password: seq<Byte>, err: AuthError) {
    && (forall u :: u in users && users[u].email == email ==>
          err == if VerifyPassword(argon2, password, users[u].passwordHash) != Matches(true) then Invalid
                 else if users[u].verified then Fine else NotVerified)
    && (err == Invalid || exists u :: u in users && users[u].email == email)
  }

  /** The old token is revoked and the new one is live, for the same user. */
  predicate Traded(was: map<string, Token>, tokens: map<string, Token>, spent: string, issued: string, expiresAt: nat) {
    && spent in was && issued !in was
    && tokens == was[spent := was[spent].(revoked := true)][issued := Token(was[spent].userId, expiresAt, false)]
  }

  /** The verification token is used, and its user verified. */
  predicate Verified(was: map<nat, User>, users: map<nat, User>,
                     wereOpen: map<string, Verification>, verifications: map<string, Verification>, token: string) {
    && token in wereOpen && wereOpen[token].userId in was
    && verifications == wereOpen[token := wereOpen[token].(used := true)]
    && var u := wereOpen[token].userId; users == was[u := was[u].(verified := true)]
  }

  lemma TradeTables(s: Auth, spent: string, issued: string, expiresAt: nat)
    requires Enabled(s, Event.Refresh(spent, issued, expiresAt))
    ensures var s' := Next(s, Event.Refresh(spent, issued, expiresAt));
      && s' == s.(tokens := s'.tokens, h := s'.h) && Traded(s.tokens, s'.tokens, spent, issued, expiresAt)
      && s'.tokens == Revoke(s.tokens, spent)[issued := Token(s.tokens[spent].userId, expiresAt, false)]
  {
    hide Append;
  }

  lemma VerifyTables(s: Auth, token: string)
    requires Enabled(s, Verify(token)) && s.verifications[token].userId in s.users
    ensures var s' := Next(s, Verify(token));
      && s' == s.(users := s'.users, verifications := s'.verifications, h := s'.h)
      && Verified(s.users, s'.users, s.verifications, s'.verifications, token)
  {
  }

  lemma OneUserEach(s: Auth)
    requires Inv(s)
    ensures EmailsUnique(s.users)
  {
  }

  lemma TokenUsers(s: Auth)
    requires Inv(s)
    ensures forall x :: x in s.tokens ==> s.tokens[x].userId in s.users
  {
  }

  lemma VerificationUsers(s: Auth)
    requires Inv(s)
    ensures forall x :: x in s.verifications ==> s.verifications[x].userId in s.users
  {
  }

  lemma RunNothing(s: Auth)
    ensures Run(s, []) == s
  {
  }

  lemma ReadUser(s: Auth, k: nat, u: nat)
    requires Inv(s) && k !in s.logins && u in s.users && s.users[u].verified
    ensures var s' := Next(s, LoginRead(k, u)); Inv(s') && s' == s.(logins := s.logins[k := u])
  {
    hide Inv;
    EventKeepsInv(s, LoginRead(k, u));
  }

  lemma DropLogin(s: Auth, k: nat)
    requires Inv(s) && k in s.logins
    ensures var s' := Next(s, LoginDrop(k)); Inv(s') && s' == s.(logins := s.logins - {k})
  {
    hide Inv;
    EventKeepsInv(s, LoginDrop(k));
  }

  lemma InsertLogin(s: Auth, k: nat, hash: string, expiresAt: nat)
    requires Inv(s) && k in s.logins && hash !in s.tokens
    ensures var s' := Next(s, LoginInsert(k, hash, expiresAt));
      && Inv(s')
      && s' == s.(logins := s.logins - {k}, h := NewChain(s.h, hash),
                  tokens := s.tokens[hash := Token(s.logins[k], expiresAt, false)])
  {
    hide Inv;
    EventKeepsInv(s, LoginInsert(k, hash, expiresAt));
  }
}
