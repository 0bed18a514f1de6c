/** What the refresh-token protocol guarantees over every interleaving. */
module Sessions {
  import opened RefreshTokens

  ghost predicate Reachable(s: Auth) {
    exists es :: s == Run(Init, es)
  }

  lemma ReachableInv(s: Auth)
    requires Reachable(s)
    ensures Inv(s)
  {
    var es :| s == Run(Init, es);
    InitInv();
    RunKeepsInv(Init, es);
  }

  /** Single use: a token is redeemed at most once, and a redeemed one is revoked for good. */
  lemma RedeemedAtMostOnce(s: Auth, hash: string)
    requires Reachable(s)
    ensures s.h.redeemed[hash] <= 1
    ensures s.h.redeemed[hash] == 1 ==> hash in s.tokens && s.tokens[hash].revoked
  {
    ReachableInv(s);
    hide Reachable, UsersOk, VerifiedOk, OwnersOk, CountOk, IsEnd;
    if hash in s.h.redeemed {
      assert hash in s.h.place && hash in s.tokens;
    }
  }

  /**
   The tokens of one login are one linear chain: one user's, all different, each but the last redeemed exactly once
   and revoked, the last not redeemed. So a login has at most one live token at any time, the last of its chain.
   */
  lemma LoginsAreChains(s: Auth, c: nat)
    requires Reachable(s) && c < |s.h.chains|
    ensures var chain := s.h.chains[c];
      && chain != []
      && (forall i :: 0 <= i < |chain| ==> chain[i] in s.tokens)
      && (forall i :: 0 <= i < |chain| ==> s.tokens[chain[i]].userId == s.tokens[chain[0]].userId)
      && (forall i, j :: 0 <= i < j < |chain| ==> chain[i] != chain[j])
      && (forall i :: 0 <= i < |chain| - 1 ==> s.tokens[chain[i]].revoked && s.h.redeemed[chain[i]] == 1)
      && s.h.redeemed[chain[|chain| - 1]] == 0
  {
    ReachableInv(s);
    ChainFacts(s.tokens, s.h, c);
  }

  lemma ChainFacts(tokens: map<string, Token>, h: History, c: nat)
    requires PlacesOk(tokens, h) && EndsOk(tokens, h) && OwnersOk(tokens, h) && c < |h.chains|
    ensures var chain := h.chains[c];
      && chain != []
      && (forall i :: 0 <= i < |chain| ==> chain[i] in tokens)
      && (forall i :: 0 <= i < |chain| ==> tokens[chain[i]].userId == tokens[chain[0]].userId)
      && (forall i, j :: 0 <= i < j < |chain| ==> chain[i] != chain[j])
      && (forall i :: 0 <= i < |chain| - 1 ==> tokens[chain[i]].revoked && h.redeemed[chain[i]] == 1)
      && h.redeemed[chain[|chain| - 1]] == 0
  {
    var chain := h.chains[c];
    assert forall i :: 0 <= i < |chain| ==> chain[i] in h.place && h.place[chain[i]] == Place(c, i);
  }

  /** Every token belongs to exactly one login. */
  lemma OneChainEach(s: Auth, hash: string, c: nat, d: nat)
    requires Reachable(s) && c < |s.h.chains| && d < |s.h.chains| && hash in s.h.chains[c] && hash in s.h.chains[d]
    ensures c == d && hash in s.tokens
  {
    ReachableInv(s);
    hide Reachable, UsersOk, VerifiedOk, OwnersOk, CountOk, EndsOk;
    var i :| 0 <= i < |s.h.chains[c]| && s.h.chains[c][i] == hash;
    var j :| 0 <= j < |s.h.chains[d]| && s.h.chains[d][j] == hash;
  }

  /** Conservation: live tokens are the logins, less the logouts that revoked a live token. */
  lemma LiveTokensCounted(s: Auth)
    requires Reachable(s)
    ensures |LiveTokens(s.tokens)| == |s.h.chains| - s.h.logouts
  {
    ReachableInv(s);
    hide Reachable, UsersOk, VerifiedOk, OwnersOk, PlacesOk, EndsOk, LiveTokens;
  }

  /**
   Nobody holds a token without having verified: every token's user is verified, a user is verified exactly if one
   of their verification tokens was used, and no verification token is used twice.
   */
  lemma TokensNeedVerification(s: Auth, hash: string, token: string)
    requires Reachable(s)
    ensures hash in s.tokens ==>
      && s.tokens[hash].userId in s.users && s.users[s.tokens[hash].userId].verified
      && exists t :: t in s.verifications && s.verifications[t].userId == s.tokens[hash].userId && s.h.verifiedBy[t] == 1
    ensures s.h.verifiedBy[token] <= 1
  {
    ReachableInv(s);
    hide Reachable, OwnersOk, PlacesOk, EndsOk, CountOk;
    assert token !in s.h.verifiedBy ==> s.h.verifiedBy[token] == 0;
    if hash in s.tokens {
      var u := s.tokens[hash].userId;
      var t :| t in s.verifications && s.verifications[t].userId == u && s.verifications[t].used;
      assert s.h.verifiedBy[t] == 1;
    }
  }

  /** Only redeeming the end of a chain makes the chain grow. */
  lemma ChainGrowsByItsEnd(s: Auth, e: Event, c: nat)
    requires Inv(s) && c < |s.h.chains|
    ensures c < |Next(s, e).h.chains|
    ensures var (chain, chain') := (s.h.chains[c], Next(s, e).h.chains[c]);
      && chain != []
      && (chain' == chain
          || (e.Refresh? && e.spent == chain[|chain| - 1] && Redeemable(s, e.spent) && chain' == chain + [e.issued]))
  {
    hide UsersOk, VerifiedOk, OwnersOk, CountOk;
    if e.Refresh? && Enabled(s, e) {
      assert IsEnd(s.h, s.h.place[e.spent]);
    }
  }

  /** Revoked or past its expiry. */
  predicate Dead(s: Auth, hash: string) {
    hash in s.tokens && (s.tokens[hash].revoked || s.now > s.tokens[hash].expiresAt)
  }

  lemma {:induction false} DeadForever(s: Auth, es: seq<Event>, hash: string)
    requires Dead(s, hash)
    ensures Dead(Run(s, es), hash)
    decreases |es|
  {
    if es != [] {
      DeadStep(s, es[0], hash);
      DeadForever(Next(s, es[0]), es[1..], hash);
    }
  }

  lemma DeadStep(s: Auth, e: Event, hash: string)
    requires Dead(s, hash)
    ensures Dead(Next(s, e), hash)
  {
  }

  /**
   How a login ends: once the last token of its chain is revoked by a logout or has expired, the chain never grows
   again and none of its tokens can ever be redeemed.
   */
  lemma DeadEndEndsLogin(s: Auth, es: seq<Event>, c: nat)
    requires Reachable(s) && c < |s.h.chains|
    requires s.h.chains[c] != [] && Dead(s, s.h.chains[c][|s.h.chains[c]| - 1])
    ensures c < |Run(s, es).h.chains| && Run(s, es).h.chains[c] == s.h.chains[c]
    ensures forall hash :: hash in s.h.chains[c] ==> !Redeemable(Run(s, es), hash)
  {
    ReachableInv(s);
    LoginsAreChains(s, c);
    DeadChain(s, es, c);
    var chain := s.h.chains[c];
    forall hash | hash in chain ensures !Redeemable(Run(s, es), hash) {
      var i :| 0 <= i < |chain| && chain[i] == hash;
      assert i < |chain| - 1 ==> s.tokens[chain[i]].revoked;
      DeadForever(s, es, hash);
    }
  }

  lemma {:induction false} DeadChain(s: Auth, es: seq<Event>, c: nat)
    requires Inv(s) && c < |s.h.chains| && s.h.chains[c] != [] && Dead(s, s.h.chains[c][|s.h.chains[c]| - 1])
    ensures c < |Run(s, es).h.chains| && Run(s, es).h.chains[c] == s.h.chains[c]
    decreases |es|
  {
    hide Inv;
    if es != [] {
      EventKeepsInv(s, es[0]);
      ChainGrowsByItsEnd(s, es[0], c);
      DeadStep(s, es[0], s.h.chains[c][|s.h.chains[c]| - 1]);
      DeadChain(Next(s, es[0]), es[1..], c);
    }
  }
}
