# Refresh-token lifecycle of an email-login JWT service

This Dafny project models the authentication core of a Django REST service that issues JSON Web
Tokens (RFC 7519). The model covers two source files.

**Token serializers (`users/serializers.py`).** These add a persisted ledger of issued refresh
tokens on top of the JWT library's own serializers.
- **Login** authenticates by email and password. It clears the parent serializer's data and mints
  a refresh token and an access token. It may update the user's last login, and it appends one
  ledger row.
- **Refresh** returns a new access token. When rotation is on, it also returns a new refresh
  token: the same token object, with a new `jti`, `exp` and `iat`. If blacklist-after-rotation is
  also on, the old `jti` is blacklisted before those fields are reset.
- **Logout** blacklists the token and deletes the ledger rows that hold its string. It then
  answers `{"success": "User logged out."}`.

**User manager and tables (`users/models.py`).** The user manager creates ordinary users and
superusers. The user table keeps emails unique. The ledger table's nullable user column cascades
when its user is deleted.

Files:
- `wrappers.dfy`: `Option` and `Result`.
- `jwt.dfy`: token claims, the library's mutable token object and its setters, and the library's
  blacklist check.
- `models.dfy`: users, ledger rows, the `filter(…).delete()` query, and the pure specifications of
  `create_user` and `create_superuser`. Also the `UserStore` class, whose `Valid()` invariant says
  ids and emails are unique and every ledger row's user exists.
- `serializers.dfy`: the library settings and the `TokenService` class, which holds the blacklist
  and the store. Its `Login`, `Refresh` and `Logout` methods model the three serializers. Three
  client methods join operations together: login then logout, logout twice, and refresh after
  logout.

Inputs the model takes as parameters:
- The clock is a parameter `now`.
- The freshly generated `jti` values are parameters.
- A token's string form is an abstract function `encode` of its claims.
- The result of the library's decoding of a submitted string is an `Option<Claims>`.
- Email normalisation and password hashing are function-valued constants of the store.
- `blacklist()` raises `AttributeError` when the token blacklist application is not installed,
  because the library adds that method only in that case. The model turns this into the setting
  `blacklistInstalled`.

Behaviour of the code that one might expect to be otherwise, which the model keeps as written:
- Logout acknowledges success only when the submitted token decodes. The token constructor is
  called outside the `try`, so a bad token raises `TokenError`. Logout is not unconditionally
  successful.
- Refresh never creates or deletes a ledger row, even when it rotates and blacklists. So a rotated
  refresh token is never recorded in the ledger, and the old token's row stays.
- The ledger row's `expire_time` uses the project's `SLIDING_TOKEN_REFRESH_LIFETIME` setting. The
  token's own `exp` uses `REFRESH_TOKEN_LIFETIME`. `Login` states they agree exactly when these two
  settings agree.
- A duplicate email is refused by the table's unique constraint when the user is saved (`save()`),
  not by an explicit check in the manager.
- A second logout with the same token does not succeed when the token blacklist application is
  installed. The first logout blacklists the token. The second logout's token constructor runs the
  library's blacklist check outside the `try`, so it raises `TokenError`. Logout is idempotent in
  the state it leaves, not in its answer.
- An access token copies the refresh token's `iat`; only `token_type`, `exp` and `jti` are set
  afresh. An access token minted by Refresh therefore carries the submitted token's original
  `iat`.

## Model

| member | source | states |
|---|---|---|
| `Models.CreateUserOutcome` | users/models.py:11-18 | a missing or empty email raises and creates nothing; otherwise the user gets the normalised email, the password's hash and the extra fields unchanged; the save fails exactly when the normalised email is already taken; a saved user keeps the table invariant |
| `Models.UserStore.CreateUser` | users/models.py:11-18 | the store's result and new user table are those of `CreateUserOutcome`; the ledger is untouched; the store invariant is kept |
| `Models.SetDefault` | users/models.py:21-23 | `dict.setdefault`, as `create_superuser` uses it: the key becomes present, it takes the default only when absent, and every existing entry is kept |
| `Models.SuperuserFields` | users/models.py:21-23 | the three `setdefault`s add `is_staff`, `is_superuser` and `is_active` as True when absent and never replace a value the caller supplied |
| `Models.CreateSuperuserOutcome` | users/models.py:20-29 | `NotStaff` exactly when `is_staff` was supplied and is not exactly True; `NotSuperuser` exactly when staff passes and `is_superuser` was supplied and is not exactly True; otherwise the outcome of `create_user` on the defaulted fields; on success both flags are True and every supplied field is kept |
| `Models.UserStore.CreateSuperuser` | users/models.py:20-29 | mutates a copy of the extra fields by `setdefault`, checks staff then superuser, then delegates to `CreateUser`; result and new table are those of `CreateSuperuserOutcome` |
| `Models.InactiveSuperuserAccepted` | users/models.py:23-29 | an explicit `is_active=False` is not validated: the superuser is created, and it is inactive, so it can never log in |
| `Models.SecondRegistrationFails` | users/models.py:34 | after a user is created, creating another with the same email fails on the unique constraint |
| `Models.UserStringIdentifies` | users/models.py:34-42 | a user's string form is its email, and under email uniqueness two users have the same string form exactly when they are the same user |
| `Models.DeleteByTokenKeepsOtherStrings` | users/models.py:50-51 | a ledger row's string form is its token, and deleting by a token string keeps exactly the rows whose string form differs from it |
| `Models.DeleteWhere` | users/serializers.py:71 | `filter(…).delete()`: no remaining row matches the query; a row remains exactly when it was there and does not match; every non-matching row keeps its multiplicity; a ledger with no match is unchanged |
| `Models.DeleteWhereAppend` | users/serializers.py:71 | deleting from a ledger with a row appended is deleting from the old ledger, keeping the new row exactly when it does not match |
| `Models.DeleteWhereIdempotent` | users/serializers.py:71 | a second deletion by the same query deletes nothing |
| `Models.UserStore.Authenticate` | users/serializers.py:17-20 | the parent's authentication by `USERNAME_FIELD` = email: returns the stored user whose email matches exactly, whose password hash matches and who is active, and returns nothing exactly when no stored user logs in with those credentials |
| `Models.UserStore.UpdateLastLogin` | users/serializers.py:27-28 | `update_last_login` sets only that user's last login to `now`; the ledger is untouched |
| `Models.UserStore.CreateRow` | users/models.py:45-48 | inserting a ledger row appends exactly that row, and is refused exactly when its user is set but does not exist (the foreign key) |
| `Models.UserStore.DeleteRows` | users/serializers.py:71 | the ledger becomes `DeleteWhere` of the old one, the returned count is the number of rows removed, and users are untouched |
| `Models.UserStore.DeleteUser` | users/models.py:47 | deleting a user removes it and, by `on_delete=CASCADE`, every ledger row that refers to it; the foreign-key invariant is kept |
| `Jwt.ForUser` | users/serializers.py:22 | `get_token` (`RefreshToken.for_user`): a refresh token for that user with the generated `jti`, issued now and valid for exactly the refresh lifetime |
| `Jwt.AccessOf` | users/serializers.py:45 | `refresh.access_token`: an access token with a new `jti` and an expiry one access lifetime after the refresh token's creation; every other claim, the subject and `iat` included, is the refresh token's |
| `Jwt.CheckBlacklist` | users/serializers.py:44 | the library's check when a token is built from its string: a result is the decoded token and is never blacklisted, and a decoded token that is not blacklisted passes |
| `Jwt.Token.SetJti` | users/serializers.py:53 | only the token's `jti` changes, to the generated one |
| `Jwt.Token.SetExp` | users/serializers.py:54 | only the token's `exp` changes, to now plus the refresh lifetime |
| `Jwt.Token.SetIat` | users/serializers.py:55 | only the token's `iat` changes, to now |
| `Serializers.TokenService.BlacklistToken` | users/serializers.py:48-51 | with the blacklist application the token's `jti` is added; without it `AttributeError` is raised and the blacklist is unchanged |
| `Serializers.TokenService.Login` | users/serializers.py:19-36 | failed authentication raises and changes nothing; otherwise the data has exactly `access_token` and `refresh_token`, `refresh_token` is the string of a refresh token for that user issued now, exactly one ledger row is appended (that string, that user, now plus the sliding lifetime), and the user record changes (last login only) exactly when `UPDATE_LAST_LOGIN` is set; the user-id counter is unchanged |
| `Serializers.TokenService.Refresh` | users/serializers.py:43-59 | a token that does not decode raises; otherwise `access_token` is always returned and `refresh_token` exactly when `ROTATE_REFRESH_TOKENS` is set; the rotated token keeps the kind and subject and has the new `jti`, `exp` and `iat`; the original `jti` is blacklisted exactly when rotation, blacklist-after-rotation and the blacklist application are all on; users, ledger and the user-id counter are never touched |
| `Serializers.TokenService.Logout` | users/serializers.py:66-74 | a decoded token always gets exactly `{"success": "User logged out."}`; with the blacklist application its `jti` is blacklisted and exactly the rows holding its string are deleted; on `AttributeError` neither happens; users and the user-id counter are untouched |
| `Serializers.LoginThenLogout` | users/serializers.py:19-74 | logging out with the token a login just issued passes the blacklist check, since its fresh `jti` is not blacklisted, and restores the ledger exactly, when no earlier row held that token string |
| `Serializers.LogoutTwice` | users/serializers.py:66-74 | the first logout of a decoded token succeeds; the second, whose token constructor runs the blacklist check, raises `TokenError` exactly when the blacklist application is installed and otherwise answers as the first; blacklist and ledger end as after a single logout |
| `Serializers.LoggedOutTokenCannotRefresh` | users/serializers.py:43-74 | after logout with the blacklist application, refreshing with the same token fails with `TokenError` |

## Left out

- JWT signing, encoding, signature and expiry verification, and the token-type check are left out. They belong to the JWT library. Token strings are an abstract `encode` of the claims, and decoding is an input.
- The library's blacklist check is modelled only as `Jwt.CheckBlacklist`, which the three client methods `LoginThenLogout`, `LogoutTwice` and `LoggedOutTokenCannotRefresh` apply to a token before they hand it on. The token serializers take the decoded token as given.
- The blacklist application's table of outstanding tokens is left out. The blacklist is modelled as a set of `jti` values.
- Django's `normalize_email` and password hashing are given as functions. Salting is not modelled, and a password check is equality with the hash of the candidate password.
- Django's model backend and the library's user rule are not part of this model. Authentication is modelled as: exact email match, hash match, and an `is_active` flag that is truthy or absent. Django's conversion of field values to booleans is approximated by Python truthiness.
- The Django model constructor's refusal of unknown or ill-typed extra fields is not modelled. Extra fields are kept as a map.
- Models.CreateUserOutcome: extra fields named after a column are not applied to that column. An extra `id` would make `save()` update the row with that key instead of inserting a new user, and an extra `last_login` would set the last login. The model always inserts at the next id with no last login, and keeps such keys only in the fields map.
- A failed insert does not consume a user id in the model. Some databases advance their sequence anyway.
- The parent's token obtain serializer mints a token that is discarded, and with `UPDATE_LAST_LOGIN` it also updates the last login. Its data is the input `parentData`. The second last-login update has the same effect as the first and is not repeated.
- A request without the token field is not modelled. The refresh serializer declares its field not required (users/serializers.py:40), so it reaches `attrs["refresh"]` and raises `KeyError` (users/serializers.py:44). The logout serializer's field is required (users/serializers.py:63), so the missing field is refused as a validation error before `validate` runs. The model always receives a decoding result.
- The `TypeError` when the project's settings lack `SLIDING_TOKEN_REFRESH_LIFETIME` is not modelled. The lifetime is a setting value.
- The 150-character limit of the ledger's token column (users/models.py:45) is not enforced. A signed refresh token, with its header, its claims (a 32-hex-digit `jti` among them) and its signature, is well over 150 characters. So on a database that enforces the limit, the ledger insert of users/serializers.py:30-34 would fail on every login. The model's `Login` always succeeds after authentication, which holds only on a database that does not enforce the limit, such as SQLite.
- `datetime.today()` (local time) and the library's UTC clock are not distinguished. Both are the single parameter `now`.
- Concurrent requests are not modelled, including the check-then-act race between two refreshes of one token. Every operation is one sequential step.
- Left out as plumbing with no lifecycle logic: HTTP views (`users/views.py`), routing (`Pyshop_RESTful_API_auth/urls.py`), the admin (`users/admin.py`), the schema migration, and the profile and registration model serializers (users/serializers.py:77-89).
- Models.DeleteWhere: states the remaining rows as a multiset and does not state that they keep their order. Table rows have no order.
