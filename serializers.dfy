/** The token lifecycle layered on the JWT library: login mints an access/refresh pair and records
    the refresh token in the ledger; refresh issues a new access token and, by policy, rotates the
    refresh token; logout blacklists the refresh token and deletes its ledger rows. */
module Serializers {
  import opened Wrappers
  import opened Jwt
  import opened Models

  /** The library's policy settings the serializers consult, and the lifetimes they use. */
  datatype Settings = Settings(
    updateLastLogin: bool,         // UPDATE_LAST_LOGIN
    rotateRefreshTokens: bool,     // ROTATE_REFRESH_TOKENS
    blacklistAfterRotation: bool,  // BLACKLIST_AFTER_ROTATION
    blacklistInstalled: bool,      // the token blacklist application is installed, so tokens have `blacklist()`
    accessLifetime: int,           // ACCESS_TOKEN_LIFETIME
    refreshLifetime: int,          // REFRESH_TOKEN_LIFETIME
    slidingRefreshLifetime: int)   // SLIDING_TOKEN_REFRESH_LIFETIME, read from the project's own settings

  /** `AuthenticationFailed` (no active account for the credentials) and `TokenError` (the token
      string did not decode, verify, or passed the library's checks). */
  datatype ServiceError = AuthenticationFailed | TokenError

  /** A serializer's validated data. */
  type Data = map<string, string>

  const LoggedOut := "User logged out."

  /** The three token serializers over one database. Token strings are an abstract encoding of the
      claims; decoding is the library's and its result is an input. */
  class TokenService {
    const settings: Settings
    const encode: Claims -> string
    const store: UserStore
    var blacklist: set<Jti>

    /** The store's invariant; without the blacklist application nothing is ever blacklisted. */
    ghost predicate Valid()
      reads this, store
    {
      store.Valid() && (!settings.blacklistInstalled ==> blacklist == {})
    }

    constructor (settings: Settings, encode: Claims -> string, store: UserStore)
      requires store.Valid()
      ensures Valid()
      ensures this.settings == settings && this.encode == encode && this.store == store
      ensures blacklist == {}
    {
      this.settings := settings;
      this.encode := encode;
      this.store := store;
      blacklist := {};
    }

    /** `token.blacklist()`: records the token's `jti`. Without the blacklist application the
        method does not exist and the call raises `AttributeError` (`ok` is false). */
    method BlacklistToken(claims: Claims) returns (ok: bool)
      modifies this
      ensures ok == settings.blacklistInstalled
      ensures blacklist == if ok then old(blacklist) + {claims.jti} else old(blacklist)
    {
      ok := settings.blacklistInstalled;
      if ok {
        blacklist := blacklist + {claims.jti};
      }
    }

    /** `TokenObtainPairSerializer.validate`. `parentData` is what the parent serializer put in the
        dictionary; `refreshJti` and `accessJti` are the identifiers the library generates. */
    method Login(email: string, password: string, parentData: Data, now: int, refreshJti: Jti, accessJti: Jti)
      returns (r: Result<Data, ServiceError>)
      requires Valid()
      modifies store
      ensures Valid()
      ensures r.Ok? ==> r.value.Keys == {"access_token", "refresh_token"}
      ensures store.nextId == old(store.nextId)
      ensures (forall id :: id in old(store.users) ==> !LogsIn(old(store.users)[id], store.makePassword, email, password))
              ==> r == Err(AuthenticationFailed) && store.users == old(store.users) && store.ledger == old(store.ledger)
      ensures forall id :: id in old(store.users) && LogsIn(old(store.users)[id], store.makePassword, email, password) ==>
                var refresh := ForUser(id, refreshJti, now, settings.refreshLifetime);
                && r == Ok(map["access_token" := encode(AccessOf(refresh, accessJti, now, settings.accessLifetime)),
                               "refresh_token" := encode(refresh)])
                && store.ledger == old(store.ledger) + [LedgerRow(encode(refresh), Some(id), now + settings.slidingRefreshLifetime)]
                && (store.ledger[|old(store.ledger)|].expireTime == refresh.exp <==>
                    settings.slidingRefreshLifetime == settings.refreshLifetime)
                && store.users == if settings.updateLastLogin
                                  then old(store.users)[id := old(store.users)[id].(lastLogin := Some(now))]
                                  else old(store.users)
    {
      var user := store.Authenticate(email, password);
      if user.None? {
        return Err(AuthenticationFailed);
      }
      var data := parentData;
      data := map[];
      var refresh := new Token(ForUser(user.value.id, refreshJti, now, settings.refreshLifetime));
      data := data["access_token" := encode(AccessOf(refresh.claims, accessJti, now, settings.accessLifetime))];
      data := data["refresh_token" := encode(refresh.claims)];
      if settings.updateLastLogin {
        store.UpdateLastLogin(user.value.id, now);
      }
      var created := store.CreateRow(LedgerRow(encode(refresh.claims), Some(user.value.id), now + settings.slidingRefreshLifetime));
      r := Ok(data);
    }

    /** `TokenRefreshSerializer.validate`. `decoded` is what the library's token constructor made of
        the submitted string (`None`: it raised `TokenError`); `accessJti` and `rotatedJti` are the
        identifiers the library generates. */
    method Refresh(decoded: Option<Claims>, now: int, accessJti: Jti, rotatedJti: Jti)
      returns (r: Result<Data, ServiceError>)
      requires Valid()
      modifies this
      ensures Valid()
      ensures store.ledger == old(store.ledger) && store.users == old(store.users) && store.nextId == old(store.nextId)
      ensures decoded.None? ==> r == Err(TokenError) && blacklist == old(blacklist)
      ensures decoded.Some? ==>
                && r.Ok?
                && r.value.Keys == (if settings.rotateRefreshTokens then {"access_token", "refresh_token"} else {"access_token"})
                && r.value["access_token"] == encode(AccessOf(decoded.value, accessJti, now, settings.accessLifetime))
                && (settings.rotateRefreshTokens ==>
                      r.value["refresh_token"] == encode(decoded.value.(jti := rotatedJti, exp := now + settings.refreshLifetime, iat := now)))
                && blacklist == if settings.rotateRefreshTokens && settings.blacklistAfterRotation && settings.blacklistInstalled
                                then old(blacklist) + {decoded.value.jti}
                                else old(blacklist)
    {
      if decoded.None? {
        return Err(TokenError);
      }
      var refreshToken := new Token(decoded.value);
      var data := map["access_token" := encode(AccessOf(refreshToken.claims, accessJti, now, settings.accessLifetime))];
      if settings.rotateRefreshTokens {
        if settings.blacklistAfterRotation {
          var ok := BlacklistToken(refreshToken.claims);
          // AttributeError is swallowed: rotation goes on either way
        }
        refreshToken.SetJti(rotatedJti);
        refreshToken.SetExp(now, settings.refreshLifetime);
        refreshToken.SetIat(now);
        data := data["refresh_token" := encode(refreshToken.claims)];
      }
      r := Ok(data);
    }

    /** `TokenBlacklistSerializer.validate`. `decoded` is what the library's token constructor made
        of the submitted string; a string that does not decode raises before the `try`. */
    method Logout(decoded: Option<Claims>) returns (r: Result<Data, ServiceError>)
      requires Valid()
      modifies this, store
      ensures Valid()
      ensures r == if decoded.Some? then Ok(map["success" := LoggedOut]) else Err(TokenError)
      ensures blacklist == if decoded.Some? && settings.blacklistInstalled
                           then old(blacklist) + {decoded.value.jti}
                           else old(blacklist)
      ensures store.ledger == if decoded.Some? && settings.blacklistInstalled
                              then DeleteWhere(old(store.ledger), TokenIs(encode(decoded.value)))
                              else old(store.ledger)
      ensures store.users == old(store.users) && store.nextId == old(store.nextId)
    {
      if decoded.None? {
        return Err(TokenError);
      }
      var refresh := new Token(decoded.value);
      var ok := BlacklistToken(refresh.claims);
      if ok {
        var count := store.DeleteRows(TokenIs(encode(refresh.claims)));
      }
      // AttributeError is swallowed
      r := Ok(map["success" := LoggedOut]);
    }
  }

  // ---------------------------------------------------------------- clients

  /** Logging out with the refresh token a login has just issued takes out exactly the row that
      login added, when no earlier row held the same token string. The logout decodes that string,
      and the library's blacklist check passes it because its generated `jti` is not blacklisted. */
  method LoginThenLogout(svc: TokenService, id: UserId, email: string, password: string,
                         parentData: Data, now: int, refreshJti: Jti, accessJti: Jti)
    returns (login: Result<Data, ServiceError>, logout: Result<Data, ServiceError>)
    requires svc.Valid() && svc.settings.blacklistInstalled
    requires id in svc.store.users && LogsIn(svc.store.users[id], svc.store.makePassword, email, password)
    requires refreshJti !in svc.blacklist
    requires forall row :: row in svc.store.ledger ==>
               row.token != svc.encode(ForUser(id, refreshJti, now, svc.settings.refreshLifetime))
    modifies svc, svc.store
    ensures svc.Valid()
    ensures login.Ok? && logout == Ok(map["success" := LoggedOut])
    ensures svc.store.ledger == old(svc.store.ledger)
  {
    ghost var before := svc.store.ledger;
    var refresh := ForUser(id, refreshJti, now, svc.settings.refreshLifetime);
    login := svc.Login(email, password, parentData, now, refreshJti, accessJti);
    logout := svc.Logout(CheckBlacklist(Some(refresh), svc.blacklist));
    var q := TokenIs(svc.encode(refresh));
    DeleteWhereAppend(before, LedgerRow(svc.encode(refresh), Some(id), now + svc.settings.slidingRefreshLifetime), q);
    assert forall k :: 0 <= k < |before| ==> !Matches(before[k], q) by {
      forall k | 0 <= k < |before| ensures !Matches(before[k], q) {
        assert before[k] in before;
      }
    }
  }

  /** Logging out twice with the same token string. `decoded` is what the first call's token
      constructor makes of it; the second call's constructor decodes it alike and then runs the
      library's blacklist check. With the blacklist application the first logout blacklisted the
      token, so the second raises `TokenError`; without it both answer alike. Either way the state
      is that of a single logout. */
  method LogoutTwice(svc: TokenService, decoded: Option<Claims>)
    returns (first: Result<Data, ServiceError>, second: Result<Data, ServiceError>)
    requires svc.Valid()
    modifies svc, svc.store
    ensures svc.Valid()
    ensures first == if decoded.Some? then Ok(map["success" := LoggedOut]) else Err(TokenError)
    ensures second == if decoded.Some? && svc.settings.blacklistInstalled then Err(TokenError) else first
    ensures svc.blacklist == if decoded.Some? && svc.settings.blacklistInstalled
                             then old(svc.blacklist) + {decoded.value.jti}
                             else old(svc.blacklist)
    ensures svc.store.ledger == if decoded.Some? && svc.settings.blacklistInstalled
                                then DeleteWhere(old(svc.store.ledger), TokenIs(svc.encode(decoded.value)))
                                else old(svc.store.ledger)
  {
    first := svc.Logout(decoded);
    second := svc.Logout(CheckBlacklist(decoded, svc.blacklist));
  }

  /** Once a token has been logged out, the library's blacklist check refuses it, so refreshing
      with it fails and changes nothing. `decoded` is what decoding its string yields before that
      check: the token itself, or nothing. */
  method LoggedOutTokenCannotRefresh(svc: TokenService, token: Claims, decoded: Option<Claims>,
                                     now: int, accessJti: Jti, rotatedJti: Jti)
    returns (r: Result<Data, ServiceError>)
    requires svc.Valid() && svc.settings.blacklistInstalled
    requires decoded == None || decoded == Some(token)
    modifies svc, svc.store
    ensures svc.Valid()
    ensures r == Err(TokenError)
  {
    var done := svc.Logout(Some(token));
    r := svc.Refresh(CheckBlacklist(decoded, svc.blacklist), now, accessJti, rotatedJti);
  }
}
