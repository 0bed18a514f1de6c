/**
 Sessions of the auth service under interleaved register, verify, login, refresh and logout. One committed
 transaction or autocommit statement is one event; a login reads the user and inserts its token in two of them.
 */
module RefreshTokens {

  datatype User = User(email: string, passwordHash: string, verified: bool)

  datatype Verification = Verification(userId: nat, expiresAt: nat, used: bool)

  /** A refresh token is stored under the hash of its raw value. */
  datatype Token = Token(userId: nat, expiresAt: nat, revoked: bool)

  datatype Place = Place(chain: nat, pos: nat)

  /** What happened so far; no event reads it. A chain is the tokens of one login, each redeemed for the next. */
  datatype History = History(
    chains: seq<seq<string>>,
    place: map<string, Place>,
    redeemed: multiset<string>,      // one element per refresh, the token given in
    logouts: nat,                    // logouts that revoked a token
    verifiedBy: multiset<string>)    // one element per verification, the token given in

  datatype Auth = Auth(
    users: map<nat, User>,
    verifications: map<string, Verification>,
    tokens: map<string, Token>,
    now: nat,
    logins: map<nat, nat>,           // logins between their two statements, with the user they read
    h: History)

  const Init := Auth(map[], map[], map[], 0, map[], History([], map[], multiset{}, 0, multiset{}))

  datatype Event =
    | Tick(to: nat)
    | Register(userId: nat, email: string, passwordHash: string, token: string, expiresAt: nat)
    | Verify(token: string)
    | LoginRead(k: nat, userId: nat)
    | LoginInsert(k: nat, hash: string, expiresAt: nat)
    | LoginDrop(k: nat)
    | Refresh(spent: string, issued: string, expiresAt: nat)
    | Logout(hash: string)

  predicate EmailTaken(users: map<nat, User>, email: string) {
    exists u :: u in users && users[u].email == email
  }

  /** Redeemable: known, of an existing user, neither revoked nor past its expiry. */
  predicate Redeemable(s: Auth, hash: string) {
    && hash in s.tokens && s.tokens[hash].userId in s.users
    && !s.tokens[hash].revoked && s.now <= s.tokens[hash].expiresAt
  }

  predicate Enabled(s: Auth, e: Event) {
    match e
    case Tick(to) => s.now <= to
    case Register(u, email, _, token, _) => u !in s.users && !EmailTaken(s.users, email) && token !in s.verifications
    case Verify(token) =>
      token in s.verifications && !s.verifications[token].used && s.now <= s.verifications[token].expiresAt
    case LoginRead(k, u) => k !in s.logins && u in s.users && s.users[u].verified
    case LoginInsert(k, hash, _) => k in s.logins && hash !in s.tokens
    case LoginDrop(k) => k in s.logins
    case Refresh(spent, issued, _) => Redeemable(s, spent) && issued !in s.tokens
    case Logout(hash) => true
  }

  function Revoke(tokens: map<string, Token>, hash: string): map<string, Token> {
    if hash in tokens then tokens[hash := tokens[hash].(revoked := true)] else tokens
  }

  predicate Live(tokens: map<string, Token>, hash: string) {
    hash in tokens && !tokens[hash].revoked
  }

  function LiveTokens(tokens: map<string, Token>): set<string> {
    set hash | hash in tokens && !tokens[hash].revoked
  }

  function NewChain(h: History, hash: string): History {
    h.(chains := h.chains + [[hash]], place := h.place[hash := Place(|h.chains|, 0)])
  }

  function Append(h: History, spent: string, issued: string): History
    requires spent in h.place && h.place[spent].chain < |h.chains|
  {
    var c := h.place[spent].chain;
    h.(chains := h.chains[c := h.chains[c] + [issued]],
       place := h.place[issued := Place(c, |h.chains[c]|)],
       redeemed := h.redeemed + multiset{spent})
  }

  function Effect(s: Auth, e: Event): Auth
    requires Enabled(s, e)
  {
    match e
    case Tick(to) => s.(now := to)
    case Register(u, email, passwordHash, token, expiresAt) =>
      s.(users := s.users[u := User(email, passwordHash, false)],
         verifications := s.verifications[token := Verification(u, expiresAt, false)])
    case Verify(token) =>
      var v := s.verifications[token];
      s.(verifications := s.verifications[token := v.(used := true)],
         users := if v.userId in s.users then s.users[v.userId := s.users[v.userId].(verified := true)] else s.users,
         h := s.h.(verifiedBy := s.h.verifiedBy + multiset{token}))
    case LoginRead(k, u) => s.(logins := s.logins[k := u])
    case LoginInsert(k, hash, expiresAt) =>
      s.(logins := s.logins - {k},
         tokens := s.tokens[hash := Token(s.logins[k], expiresAt, false)],
         h := NewChain(s.h, hash))
    case LoginDrop(k) => s.(logins := s.logins - {k})
    case Refresh(spent, issued, expiresAt) =>
      s.(tokens := Revoke(s.tokens, spent)[issued := Token(s.tokens[spent].userId, expiresAt, false)],
         h := if spent in s.h.place && s.h.place[spent].chain < |s.h.chains| then Append(s.h, spent, issued) else s.h)
    case Logout(hash) =>
      s.(tokens := Revoke(s.tokens, hash),
         h := if Live(s.tokens, hash) then s.h.(logouts := s.h.logouts + 1) else s.h)
  }

  function Next(s: Auth, e: Event): Auth {
    if Enabled(s, e) then Effect(s, e) else s
  }

  function Run(s: Auth, es: seq<Event>): Auth
    decreases |es|
  {
    if es == [] then s else Run(Next(s, es[0]), es[1..])
  }

  // -- The invariant

  predicate IsEnd(h: History, p: Place) {
    p.chain < |h.chains| && p.pos == |h.chains[p.chain]| - 1
  }

  /** Tokens and places in chains correspond one to one. */
  ghost predicate PlacesOk(tokens: map<string, Token>, h: History) {
    && h.place.Keys == tokens.Keys
    && (forall x :: x in h.place ==>
          var p := h.place[x]; p.chain < |h.chains| && p.pos < |h.chains[p.chain]| && h.chains[p.chain][p.pos] == x)
    && (forall c, i :: 0 <= c < |h.chains| && 0 <= i < |h.chains[c]| ==>
          h.chains[c][i] in h.place && h.place[h.chains[c][i]] == Place(c, i))
    && (forall c :: 0 <= c < |h.chains| ==> h.chains[c] != [])
  }

  /** Only the end of a chain can be live, and a token was redeemed exactly if it is not the end. */
  ghost predicate EndsOk(tokens: map<string, Token>, h: History) {
    && (forall x :: x in h.place && x in tokens && !tokens[x].revoked ==> IsEnd(h, h.place[x]))
    && (forall x :: x in h.place ==> h.redeemed[x] == if IsEnd(h, h.place[x]) then 0 else 1)
    && (forall x :: x in h.redeemed ==> x in h.place)
  }

  /** The tokens of a chain are one user's. */
  ghost predicate OwnersOk(tokens: map<string, Token>, h: History) {
    forall x, y :: x in tokens && y in tokens && x in h.place && y in h.place && h.place[x].chain == h.place[y].chain ==>
      tokens[x].userId == tokens[y].userId
  }

  ghost predicate CountOk(tokens: map<string, Token>, h: History) {
    |LiveTokens(tokens)| + h.logouts == |h.chains|
  }

  ghost predicate UsersOk(users: map<nat, User>, tokens: map<string, Token>, logins: map<nat, nat>) {
    && (forall x :: x in tokens ==> tokens[x].userId in users && users[tokens[x].userId].verified)
    && (forall k :: k in logins ==> logins[k] in users && users[logins[k]].verified)
    && EmailsUnique(users)
  }

  ghost predicate EmailsUnique(users: map<nat, User>) {
    forall u, v :: u in users && v in users && users[u].email == users[v].email ==> u == v
  }

  /** A verification token is used at most once, and a user is verified exactly if a token of theirs was. */
  ghost predicate VerifiedOk(users: map<nat, User>, verifications: map<string, Verification>, h: History) {
    && (forall t :: t in verifications ==> verifications[t].userId in users)
    && (forall t :: t in h.verifiedBy ==> t in verifications)
    && (forall t :: t in verifications ==> h.verifiedBy[t] == if verifications[t].used then 1 else 0)
    && (forall u :: u in users ==>
          (users[u].verified <==> exists t :: t in verifications && verifications[t].userId == u && verifications[t].used))
  }

  ghost predicate Inv(s: Auth) {
    && PlacesOk(s.tokens, s.h) && EndsOk(s.tokens, s.h) && OwnersOk(s.tokens, s.h) && CountOk(s.tokens, s.h)
    && UsersOk(s.users, s.tokens, s.logins) && VerifiedOk(s.users, s.verifications, s.h)
  }

  lemma InitInv()
    ensures Inv(Init)
  {
  }

  // -- Login

  lemma NewChainPlaces(tokens: map<string, Token>, h: History, hash: string, token: Token)
    requires PlacesOk(tokens, h) && hash !in tokens
    ensures PlacesOk(tokens[hash := token], NewChain(h, hash))
  {
  }

  lemma NewChainEnds(tokens: map<string, Token>, h: History, hash: string, token: Token)
    requires PlacesOk(tokens, h) && EndsOk(tokens, h) && hash !in tokens
    ensures EndsOk(tokens[hash := token], NewChain(h, hash))
  {
    var h' := NewChain(h, hash);
    assert hash !in h.redeemed;
    NewChainEnd(tokens, h, hash);
    hide IsEnd, PlacesOk;
  }

  lemma NewChainEnd(tokens: map<string, Token>, h: History, hash: string)
    requires PlacesOk(tokens, h) && hash !in tokens
    ensures var h' := NewChain(h, hash);
      && (forall x :: x in h.place ==> x in tokens && h'.place[x] == h.place[x] && (IsEnd(h', h'.place[x]) <==> IsEnd(h, h.place[x])))
      && IsEnd(h', h'.place[hash])
  {
  }

  lemma NewChainOwners(tokens: map<string, Token>, h: History, hash: string, token: Token)
    requires PlacesOk(tokens, h) && OwnersOk(tokens, h) && hash !in tokens
    ensures OwnersOk(tokens[hash := token], NewChain(h, hash))
  {
    assert forall x :: x in tokens ==> h.place[x].chain < |h.chains|;
  }

  lemma NewLive(tokens: map<string, Token>, hash: string, token: Token)
    requires hash !in tokens && !token.revoked
    ensures |LiveTokens(tokens[hash := token])| == |LiveTokens(tokens)| + 1
  {
    assert LiveTokens(tokens[hash := token]) == LiveTokens(tokens) + {hash};
  }

  // -- Refresh and logout

  lemma RevokeLive(tokens: map<string, Token>, hash: string)
    ensures |LiveTokens(Revoke(tokens, hash))| == |LiveTokens(tokens)| - (if Live(tokens, hash) then 1 else 0)
  {
    assert LiveTokens(Revoke(tokens, hash)) == LiveTokens(tokens) - {hash};
  }

  lemma RevokeKeeps(tokens: map<string, Token>, h: History, hash: string)
    requires PlacesOk(tokens, h) && EndsOk(tokens, h) && OwnersOk(tokens, h)
    ensures PlacesOk(Revoke(tokens, hash), h) && EndsOk(Revoke(tokens, hash), h) && OwnersOk(Revoke(tokens, hash), h)
  {
    var tokens' := Revoke(tokens, hash);
    assert tokens'.Keys == tokens.Keys;
    assert forall x :: x in tokens ==> tokens'[x].userId == tokens[x].userId && (tokens[x].revoked ==> tokens'[x].revoked);
    hide Revoke, IsEnd;
    PlacesSame(tokens, tokens', h);
    hide PlacesOk;
  }

  lemma PlacesSame(tokens: map<string, Token>, tokens': map<string, Token>, h: History)
    requires PlacesOk(tokens, h) && tokens'.Keys == tokens.Keys
    ensures PlacesOk(tokens', h)
  {
  }

  lemma AppendPlaces(tokens: map<string, Token>, h: History, spent: string, issued: string, token: Token)
    requires PlacesOk(tokens, h) && spent in tokens && issued !in tokens
    ensures PlacesOk(tokens[issued := token], Append(h, spent, issued))
  {
  }

  /** Redeeming the end of a chain moves the end to the token it is redeemed for. */
  lemma AppendEnd(tokens: map<string, Token>, h: History, spent: string, issued: string)
    requires PlacesOk(tokens, h) && spent in tokens && issued !in tokens && IsEnd(h, h.place[spent])
    ensures var h' := Append(h, spent, issued);
      && IsEnd(h', h'.place[issued]) && !IsEnd(h', h'.place[spent])
      && (forall x :: x in h.place && x != spent ==>
            h'.place[x] == h.place[x] && (IsEnd(h', h'.place[x]) <==> IsEnd(h, h.place[x])))
  {
    var (h', c) := (Append(h, spent, issued), h.place[spent].chain);
    forall x | x in h.place && x != spent ensures IsEnd(h', h'.place[x]) <==> IsEnd(h, h.place[x]) {
      var p := h.place[x];
      assert h.chains[p.chain][p.pos] == x;
    }
  }

  lemma AppendEnds(tokens: map<string, Token>, h: History, spent: string, issued: string, token: Token)
    requires PlacesOk(tokens, h) && EndsOk(tokens, h) && Live(tokens, spent) && issued !in tokens
    ensures EndsOk(Revoke(tokens, spent)[issued := token], Append(h, spent, issued))
  {
    assert spent in h.place && issued !in h.place;
    AppendEnd(tokens, h, spent, issued);
    hide PlacesOk, IsEnd;
  }

  lemma AppendOwners(tokens: map<string, Token>, h: History, spent: string, issued: string, token: Token)
    requires PlacesOk(tokens, h) && OwnersOk(tokens, h) && spent in tokens && issued !in tokens
    requires token.userId == tokens[spent].userId
    ensures OwnersOk(Revoke(tokens, spent)[issued := token], Append(h, spent, issued))
  {
  }

  // -- Every event

  ghost predicate ChainsOk(s: Auth) {
    PlacesOk(s.tokens, s.h) && EndsOk(s.tokens, s.h) && OwnersOk(s.tokens, s.h) && CountOk(s.tokens, s.h)
  }

  lemma InvIs(s: Auth)
    ensures Inv(s) <==> ChainsOk(s) && UsersOk(s.users, s.tokens, s.logins) && VerifiedOk(s.users, s.verifications, s.h)
  {
  }

  lemma LoginInsertKeeps(s: Auth, k: nat, hash: string, expiresAt: nat)
    requires ChainsOk(s) && Enabled(s, LoginInsert(k, hash, expiresAt))
    ensures ChainsOk(Effect(s, LoginInsert(k, hash, expiresAt)))
  {
    var token := Token(s.logins[k], expiresAt, false);
    NewChainPlaces(s.tokens, s.h, hash, token);
    NewChainEnds(s.tokens, s.h, hash, token);
    NewChainOwners(s.tokens, s.h, hash, token);
    NewLive(s.tokens, hash, token);
    hide PlacesOk, EndsOk, OwnersOk, LiveTokens;
  }

  lemma RefreshKeeps(s: Auth, spent: string, issued: string, expiresAt: nat)
    requires ChainsOk(s) && Enabled(s, Refresh(spent, issued, expiresAt))
    ensures ChainsOk(Effect(s, Refresh(spent, issued, expiresAt)))
  {
    hide PlacesOk, EndsOk, OwnersOk, LiveTokens, Revoke, IsEnd;
    var token := Token(s.tokens[spent].userId, expiresAt, false);
    PlaceOf(s.tokens, s.h, spent);
    RevokeKeeps(s.tokens, s.h, spent);
    assert issued !in Revoke(s.tokens, spent) && spent in Revoke(s.tokens, spent) by {
      RevokeKeys(s.tokens, spent);
    }
    AppendPlaces(Revoke(s.tokens, spent), s.h, spent, issued, token);
    AppendEnds(s.tokens, s.h, spent, issued, token);
    AppendOwners(s.tokens, s.h, spent, issued, token);
    RevokeLive(s.tokens, spent);
    NewLive(Revoke(s.tokens, spent), issued, token);
    hide Append;
    AppendSize(s.h, spent, issued);
  }

  lemma AppendSize(h: History, spent: string, issued: string)
    requires spent in h.place && h.place[spent].chain < |h.chains|
    ensures var h' := Append(h, spent, issued); |h'.chains| == |h.chains| && h'.logouts == h.logouts
  {
  }

  lemma PlaceOf(tokens: map<string, Token>, h: History, x: string)
    requires PlacesOk(tokens, h) && x in tokens
    ensures x in h.place && h.place[x].chain < |h.chains|
  {
  }

  lemma RevokeKeys(tokens: map<string, Token>, x: string)
    ensures Revoke(tokens, x).Keys == tokens.Keys
  {
  }

  lemma LogoutKeeps(s: Auth, hash: string)
    requires ChainsOk(s)
    ensures ChainsOk(Effect(s, Logout(hash)))
  {
    hide PlacesOk, EndsOk, OwnersOk, LiveTokens, Revoke;
    RevokeKeeps(s.tokens, s.h, hash);
    RevokeLive(s.tokens, hash);
    LogoutsSame(Revoke(s.tokens, hash), s.h, s.h.logouts + 1);
  }

  lemma LogoutsSame(tokens: map<string, Token>, h: History, logouts: nat)
    requires PlacesOk(tokens, h) && EndsOk(tokens, h) && OwnersOk(tokens, h)
    ensures var h' := h.(logouts := logouts); PlacesOk(tokens, h') && EndsOk(tokens, h') && OwnersOk(tokens, h')
  {
  }

  lemma EventKeepsChains(s: Auth, e: Event)
    requires ChainsOk(s)
    ensures ChainsOk(Next(s, e))
  {
    hide ChainsOk;
    if Enabled(s, e) {
      match e
      case LoginInsert(k, hash, expiresAt) => LoginInsertKeeps(s, k, hash, expiresAt);
      case Refresh(spent, issued, expiresAt) => RefreshKeeps(s, spent, issued, expiresAt);
      case Logout(hash) => LogoutKeeps(s, hash);
      case _ => ChainsSame(s, Next(s, e));
    }
  }

  lemma ChainsSame(s: Auth, s': Auth)
    requires ChainsOk(s) && s'.tokens == s.tokens && s'.h == s.h.(verifiedBy := s'.h.verifiedBy)
    ensures ChainsOk(s')
  {
  }

  lemma EventKeepsUsers(s: Auth, e: Event)
    requires UsersOk(s.users, s.tokens, s.logins) && (forall t :: t in s.verifications ==> s.verifications[t].userId in s.users)
    ensures var s' := Next(s, e); UsersOk(s'.users, s'.tokens, s'.logins)
  {
    hide NewChain, Append, Live, EmailsUnique, Revoke;
    if Enabled(s, e) {
      match e
      case Register(u, email, passwordHash, _, _) => RegisterUsers(s, u, email, passwordHash);
      case Verify(token) => VerifyUsers(s, s.verifications[token].userId);
      case Refresh(spent, issued, expiresAt) => RevokeUsers(s, spent);
      case Logout(hash) => RevokeUsers(s, hash);
      case _ =>
    }
  }

  lemma RevokeUsers(s: Auth, x: string)
    requires UsersOk(s.users, s.tokens, s.logins)
    ensures UsersOk(s.users, Revoke(s.tokens, x), s.logins)
  {
    hide EmailsUnique;
  }

  lemma RegisterUsers(s: Auth, u: nat, email: string, passwordHash: string)
    requires UsersOk(s.users, s.tokens, s.logins) && u !in s.users
    requires forall v :: v in s.users ==> s.users[v].email != email
    ensures UsersOk(s.users[u := User(email, passwordHash, false)], s.tokens, s.logins)
  {
  }

  lemma VerifyUsers(s: Auth, u: nat)
    requires UsersOk(s.users, s.tokens, s.logins) && u in s.users
    ensures UsersOk(s.users[u := s.users[u].(verified := true)], s.tokens, s.logins)
  {
  }

  lemma EventKeepsVerified(s: Auth, e: Event)
    requires VerifiedOk(s.users, s.verifications, s.h)
    ensures var s' := Next(s, e); VerifiedOk(s'.users, s'.verifications, s'.h)
  {
    if Enabled(s, e) {
      match e
      case Register(u, email, passwordHash, token, expiresAt) => RegisterVerified(s, u, email, passwordHash, token, expiresAt);
      case Verify(token) => VerifyVerified(s, token);
      case _ =>
    }
  }

  lemma RegisterVerified(s: Auth, u: nat, email: string, passwordHash: string, token: string, expiresAt: nat)
    requires VerifiedOk(s.users, s.verifications, s.h) && u !in s.users && token !in s.verifications
    ensures VerifiedOk(s.users[u := User(email, passwordHash, false)], s.verifications[token := Verification(u, expiresAt, false)], s.h)
  {
    var (users', verifications') := (s.users[u := User(email, passwordHash, false)], s.verifications[token := Verification(u, expiresAt, false)]);
    forall x | x in users'
      ensures users'[x].verified <==> exists t :: t in verifications' && verifications'[t].userId == x && verifications'[t].used
    {
      if x != u && s.users[x].verified {
        var t :| t in s.verifications && s.verifications[t].userId == x && s.verifications[t].used;
        assert verifications'[t] == s.verifications[t];
      }
    }
  }

  lemma VerifyVerified(s: Auth, token: string)
    requires VerifiedOk(s.users, s.verifications, s.h) && Enabled(s, Verify(token))
    ensures var s' := Effect(s, Verify(token)); VerifiedOk(s'.users, s'.verifications, s'.h)
  {
    var s' := Effect(s, Verify(token));
    forall u | u in s'.users
      ensures s'.users[u].verified <==>
        exists t :: t in s'.verifications && s'.verifications[t].userId == u && s'.verifications[t].used
    {
      if u == s.verifications[token].userId {
        assert token in s'.verifications && s'.verifications[token].used;
      } else if s.users[u].verified {
        var t :| t in s.verifications && s.verifications[t].userId == u && s.verifications[t].used;
        assert t in s'.verifications && s'.verifications[t] == s.verifications[t];
      }
    }
  }

  lemma EventKeepsInv(s: Auth, e: Event)
    requires Inv(s)
    ensures Inv(Next(s, e))
  {
    InvIs(s);
    InvIs(Next(s, e));
    EventKeepsChains(s, e);
    EventKeepsUsers(s, e);
    EventKeepsVerified(s, e);
    hide Inv, ChainsOk, Next;
  }

  lemma {:induction false} RunKeepsInv(s: Auth, es: seq<Event>)
    requires Inv(s)
    ensures Inv(Run(s, es))
    decreases |es|
  {
    hide Inv;
    if es != [] {
      EventKeepsInv(s, es[0]);
      RunKeepsInv(Next(s, es[0]), es[1..]);
    }
  }
}
