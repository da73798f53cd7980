# auth-api login controllers in Dafny

This project models the identity-resolution and login decisions of the
`ibrand/auth-api` package. The package issues Bearer access tokens to users
who log in three ways:

- by SMS code (`AuthController::smsLogin`);
- by WeChat Mini-Program code (`MiniProgramLoginController::login`, then `mobileLogin`);
- by WeChat Official-Account OAuth open id (`OfficialAccountAuthController::quickLogin`).

Each flow is a pure function. It takes the store, the request fields and the
answers of the foreign calls, and returns a `Handled` value:

- the outcome: an envelope, or `Aborted` for an uncaught PHP error;
- the store afterwards;
- the event log afterwards.

The store has two tables:

- `users`: a sequence. A user's auto-increment id is its position plus one.
- `bindings`: a map keyed by open id. The controllers look up a single
  binding only with `getByOpenId`, never by (open id, app id). The list of
  bindings `getByUnionId` returns is an input (see below).

Modules, one per source file or concept:

- `Wrappers`: `Option`, which stands for PHP's `null`.
- `Php`: `empty()` and `??` on strings.
- `Store`: the tables, plus the repository calls the controllers make on them.
- `Controller`: envelopes, token, `user.login` event and `getUserByUnionid`.
- `MiniProgram`, `OfficialAccount`, `Auth`: the three controllers.

PHP details that the model keeps:

- `empty()` is true of null, `""` and `"0"`. `??` falls back only on null,
  so when `request('app')` returns `""` the app named `""` is selected, not
  `'default'`. (Whether an empty `?app=` reaches the controller as `""` or as
  null depends on the host application's middleware.)
- `isset()` is `Some?`.
- A `user_id` counts as linked only when it is neither null nor 0.

An uncaught error ends the request with `Aborted`. Examples are a method
called on null, a thrown configuration exception, and a `decryptData` that
throws. Whatever the request wrote before the error stays written, because
no transaction wraps the flows. For example, `smsLogin` creates the user
before it reads the binding that is missing.

Behaviour of the code worth noting:

- Only `smsLogin` checks for a FORBIDDEN user. `login`, `mobileLogin` and
  `quickLogin` hand a token to a forbidden user (`MiniProgram.MobileLoginGrantsForbiddenUser`).
- `smsLogin` dispatches no events. Only `login` and `mobileLogin` dispatch `user.login`.
- `smsLogin` maps WeChat sex 1 to '男' and every other value, including null, to '女'.
  It never leaves the sex unset.
- Profile enrichment writes the user only, never the binding.
- The unionid short-circuit of `login` never fires. See Findings.

## Model

| member | source | states |
|---|---|---|
| Php.Empty | src/Controllers/MiniProgramLoginController.php:68 | `empty()` holds of null, "" and "0"; a non-empty value is a set, non-empty string other than "0" |
| Php.Coalesce | src/Controllers/OfficialAccountAuthController.php:67 | `??` falls back to the default only on null and keeps any set string |
| Php.CoalesceKeepsEmptyStrings | src/Controllers/OfficialAccountAuthController.php:63-67 | `??` keeps "" and "0", which `empty()` calls empty; a non-empty value passes `??` unchanged |
| Controller.AppKey | src/Controllers/MiniProgramLoginController.php:212 | the app key is 'default' only when `app` is missing (or is 'default'); a set `app`, even "", is the key |
| Controller.Success | src/Controllers/Controller.php:32-35 | a success envelope has the given status (default true) and code (default 200); `data` is null exactly when the data array is empty, and the data otherwise |
| Controller.Failed | src/Controllers/Controller.php:44-48 | a failure envelope carries status false and code 400 by default, and the message |
| Controller.EnvelopesDisjoint | src/Controllers/Controller.php:32-48 | a success envelope is never a refusal and a failure envelope never carries a token; their default codes are 200 and 400 |
| Controller.Grant | src/Controllers/MiniProgramLoginController.php:114-120 | a granting response carries a Bearer token for exactly the given user, and the given `is_new_user` |
| Controller.OpenIdOnly | src/Controllers/MiniProgramLoginController.php:109-111 | the bare-open-id response is a success that carries no token |
| Controller.ClosureAsWritten | src/Controllers/Controller.php:62-66 | the closure's inverted guard looks up a user only for an unlinked row, which finds no one; a linked row leaves `$user` alone |
| Controller.ClosureIntended | src/Controllers/Controller.php:62-66 | with the guard the comment intends, a linked row's user is looked up and an unlinked row is skipped |
| Controller.EachByReference | src/Controllers/Controller.php:62-66 | with `$user` captured by reference, `each` leaves it as it started or as what `find` gave for one of the rows |
| Controller.UserByUnionIdIntended | src/Controllers/Controller.php:56-70 | intended variant: the lookup answers only with an existing user that one of the rows names |
| Controller.UserByUnionIdAsWritten | src/Controllers/Controller.php:56-70 | as written, the unionid lookup returns null for every store and every set of rows; it reads the store and writes nothing |
| Controller.InvertedGuardNeverFinds | src/Controllers/Controller.php:63-64 | even if `$user` were captured by reference, the inverted guard alone would still make the lookup return null |
| Controller.LastLinked | src/Controllers/Controller.php:62-66 | the reference definition for the intended lookup: the last row that is linked, or none when no row is |
| Controller.EachIntendedIsLastLinked | src/Controllers/Controller.php:62-66 | the intended `each` leaves `$user` as `find` of the last linked row, or as it started when no row is linked |
| Controller.UserByUnionIdIntendedIff | src/Controllers/Controller.php:56-70 | the intended lookup answers only with an existing user that a row is linked to; when every linked row's user exists, it answers iff some row is linked |
| Controller.UnionIdLookupMissesLinkedUser | src/Controllers/Controller.php:56-70 | a store where unionid "u1" is linked to user 1: the intended lookup finds user 1 and the code as written finds no one |
| Store.Linked | src/Controllers/MiniProgramLoginController.php:109 | a binding is linked only when its `user_id` is set and not 0 |
| Store.NewUser | src/Controllers/AuthController.php:69-70 | a user created from a mobile holds that mobile, is ACTIVE and has no profile fields |
| Store.Find | src/Controllers/MiniProgramLoginController.php:114 | assumed contract of `find`: a user exactly for the id of an existing row, and null (no exception) for a null, 0 or unknown id |
| Store.FirstWithMobile | src/Controllers/AuthController.php:68 | the search gives the first user at or after a position whose mobile matches; it gives none iff no user from there on has the mobile |
| Store.UserByMobile | src/Controllers/MiniProgramLoginController.php:161 | `getUserByCredentials(['mobile' => ...])` gives the first user with that mobile, or none iff no user has it |
| Store.ResolveByMobile | src/Controllers/AuthController.php:66-72 | get-or-create gives the first user with the mobile; it creates a user holding only that mobile iff none had it, and `isNew` says so; bindings are untouched |
| Store.ResolveByMobileTwice | src/Controllers/MiniProgramLoginController.php:158-165 | resolving the same mobile twice gives the same user; the second time nothing is created and nothing changes |
| Store.ResolveByMobileKeepsValid | src/Controllers/AuthController.php:66-72 | creating a user only for an unseen mobile keeps the store consistent, including unique mobiles |
| Store.BindPlatform | src/Controllers/MiniProgramLoginController.php:169 | assumed contract of `bindPlatform`, create or link: an absent binding for the open id is created with the given type and app id, linked to the user; an existing one only gets its user id set and keeps its type, app id and unionid; no other binding changes; a null open id binds nothing |
| Store.BindPlatformKeepsValid | src/Controllers/AuthController.php:85 | binding a platform to an existing user keeps the store consistent |
| Store.UpdateProfile | src/Controllers/AuthController.php:91-94 | the profile update overwrites exactly nick name, sex, avatar and city of that one user |
| Store.UpdateProfileKeepsValid | src/Controllers/AuthController.php:91-94 | a profile update keeps the store consistent |
| MiniProgram.ConfiguredAppId | src/Controllers/MiniProgramLoginController.php:210-236 | the app key defaults to 'default' only for a missing `app`; the app id is given iff that app's app id and secret are both non-empty, and it is then the configured value |
| MiniProgram.BackfillUnionId | src/Controllers/MiniProgramLoginController.php:103-106 | the unionid is written once: only when the session gave one and the stored one is empty; no other binding field changes |
| MiniProgram.LoginFlow | src/Controllers/MiniProgramLoginController.php:66-120 | the body of `login` given the unionid lookup's answer: a found user is granted a token with one event before any binding is read; users are never touched; a token goes only to the found user or an existing one |
| MiniProgram.Login | src/Controllers/MiniProgramLoginController.php:64-121 | empty code, missing config or missing openid change nothing and grant no token. An unseen open id gets exactly one new unlinked 'miniprogram' binding (unionid or '') and `{open_id}`. The session's binding has an empty unionid filled from the session, and no other binding changes. A Bearer token is granted iff the binding is linked to an existing user, for exactly that user, with one `user.login` event. Users are never touched |
| MiniProgram.LoginIgnoresUnionRows | src/Controllers/MiniProgramLoginController.php:83-90 | the unionid branch of `login` is dead: whatever rows `getByUnionId` returns, the outcome, store and log are the same |
| MiniProgram.LoginKeepsValid | src/Controllers/MiniProgramLoginController.php:64-121 | on a consistent store, `login` keeps it consistent and aborts exactly when the mini-program is not configured |
| MiniProgram.LoginIntended | src/Controllers/MiniProgramLoginController.php:82-90 | intended variant: a user found by unionid gets a token, one login event and no store change; otherwise the variant behaves exactly as `login` as written |
| MiniProgram.LoginIntendedGrantsUnionUser | src/Controllers/MiniProgramLoginController.php:82-90 | intended variant: if a binding carrying the session's unionid is linked, a token is issued for a user linked through that unionid and no binding is created, even for an unseen open id |
| MiniProgram.MobileLogin | src/Controllers/MiniProgramLoginController.php:129-174 | missing config, missing session key, a throwing decryption or a missing phone number change nothing and grant no token. Otherwise a Bearer token is granted to the first user with the decrypted mobile, created iff none had it, and `is_new_user` says so. The open id is bound to that user: a new binding is 'miniprogram' with the app's id, an existing one keeps everything but its user id. One login event is dispatched and no other binding is changed or added |
| MiniProgram.MobileLoginTwice | src/Controllers/MiniProgramLoginController.php:158-173 | repeating `mobileLogin` with the same phone number gives the same user, `is_new_user` false, and creates no user |
| MiniProgram.MobileLoginKeepsValid | src/Controllers/MiniProgramLoginController.php:158-169 | `mobileLogin` keeps a consistent store consistent |
| MiniProgram.MobileLoginGrantsForbiddenUser | src/Controllers/MiniProgramLoginController.php:158-173 | `mobileLogin` never checks status: a FORBIDDEN user with the decrypted mobile gets a token |
| MiniProgram.ConfiguredAppIdDefault | src/Controllers/MiniProgramLoginController.php:210-236 | a null `request('app')` and the value 'default' select the same mini-program; the value "" does not fall back to 'default' |
| MiniProgram.OpenIdByCodeAgreesWithLogin | src/Controllers/MiniProgramLoginController.php:66-78 | `getOpenIdByCode` refuses what `login` refuses, except that with an empty code and no config it aborts where `login` refuses; on a consistent store it succeeds exactly when `login` gets past its checks, with the same open id |
| MiniProgram.OpenIdByCode | src/Controllers/MiniProgramLoginController.php:183-202 | config is checked before the code, so a missing config aborts even with an empty code. An empty code or missing openid is refused. Otherwise the answer is `{openid}`, never a token, and no store is read or written |
| OfficialAccount.RedirectUrl | src/Controllers/OfficialAccountAuthController.php:61-74 | an empty `redirect_url` is refused before any config is read; a success carries the OAuth URL for the redirect target and the selected app's id; with no `app` the 'default' app is used |
| OfficialAccount.RedirectUrlMatchesQuickLogin | src/Controllers/OfficialAccountAuthController.php:67-108 | the OAuth URL is built from the same app id that `quickLogin` stores on a new binding; with a redirect target, the URL request aborts only when `quickLogin` does, and on a consistent store exactly then |
| OfficialAccount.QuickLogin | src/Controllers/OfficialAccountAuthController.php:81-108 | an empty open id is refused and changes nothing. Existing bindings are never modified. An unseen open id gets exactly one unlinked 'wechat' binding with the app's id, and `{open_id}`. A Bearer token is granted iff the binding is linked to an existing user, for exactly that user. No event is dispatched and users are never touched |
| OfficialAccount.QuickLoginTwice | src/Controllers/OfficialAccountAuthController.php:92-100 | `quickLogin` is idempotent: repeating a request gives the same outcome and store |
| OfficialAccount.QuickLoginKeepsValid | src/Controllers/OfficialAccountAuthController.php:81-108 | on a consistent store, `quickLogin` keeps it consistent and aborts exactly when the app has no configuration |
| Auth.SexLabel | src/Controllers/AuthController.php:92 | the stored sex is '男' iff WeChat reports 1, and '女' for every other value |
| Auth.BindAndEnrich | src/Controllers/AuthController.php:81-95 | with a binding for the open id, it is linked to the user and keeps its type, app id and unionid. Only a 'wechat' binding overwrites the user's nick name, mapped sex, avatar and city, and no other user changes. With no binding the step stops before writing; when a 'wechat' binding's profile cannot be fetched it stops after the binding was written |
| Auth.SmsLogin | src/Controllers/AuthController.php:57-99 | a wrong code is refused before any user lookup. A FORBIDDEN user is refused and nothing changes. A Bearer token is granted iff the code is right, the user is not forbidden, and any open id has a binding whose WeChat profile, if needed, was fetched; it goes to the first user with the mobile, with `is_new_user`. With no open id, bindings and profiles are untouched. A failed step aborts and keeps what was written. No event is dispatched |
| Auth.SmsLoginCreatesIffAbsent | src/Controllers/AuthController.php:66-72 | when a token is granted, a user was created iff no user had the mobile, and `is_new_user` says exactly that |
| Auth.SmsLoginGrantedKeeps | src/Controllers/AuthController.php:66-95 | after a granted SMS login the resolved user keeps its mobile and status, no user is added, and the open id's binding is still there with the same type |
| Auth.SmsLoginTwice | src/Controllers/AuthController.php:66-98 | repeating a successful SMS login with the same mobile gives the same user, `is_new_user` false, and creates no user |
| Auth.SmsLoginKeepsValid | src/Controllers/AuthController.php:57-99 | `smsLogin` keeps a consistent store consistent |
| Auth.SmsLoginProfileFailureKeepsWrites | src/Controllers/AuthController.php:66-95 | when `getUser` fails for a 'wechat' binding, the request aborts without a token, but the created user and the relinked binding stay |
| Auth.SmsLoginScenario | src/Controllers/AuthController.php:66-98 | on an empty store, the first login with 13800000000 creates user 1 and reports a new user; the second reports user 1, not new |

## Left out

- WeChat SDK calls are inputs: `auth->session`, `encryptor->decryptData`,
  `platform_application()->getOauthUrl` and `getUser`. Their internals are
  foreign code. A throwing `decryptData` and a failing `getUser` in
  `smsLogin` are modelled as aborts.
- `auth->session` and `getOauthUrl` are assumed to return and not throw.
  A thrown error there would abort `login`, `getOpenIdByCode` or
  `getRedirectUrl` before any write, which the model does not represent.
- `Sms::checkCode` is the boolean `codeOk`; its code is not part of this model.
- Auth.SmsLogin: takes `mobile: string`, so a request with a null `mobile` is
  outside the model. It is assumed that `Sms::checkCode` rejects such a request.
- Auth.SmsLogin: the WeChat profile's `sex` is an optional integer, so a null
  `sex` maps to '女'. A profile array with no `sex` key at all, an
  undefined-index error in PHP, is not modelled.
- `get_wechat_config` is a map from app key to app id. A key it does not
  know is modelled as aborting the request, because the helper's code is not
  part of this model.
- Store.Find: `UserRepository::find` is not part of this model. It is assumed
  to answer null, not to throw, for a null, 0 or unknown id. The as-written
  `getUserByUnionid` calls `find` on exactly such ids for unlinked rows, so
  its "never finds a user" result rests on this assumption. If `find` threw
  there, `login` would abort for such a unionid instead.
- Store.BindPlatform: `UserService::bindPlatform` is not part of this model.
  Its contract here is assumed: create, or link an existing binding. An
  existing binding only gets its user id set; its type and app id are kept,
  since nothing in the controllers shows them being rewritten. A null open id
  is assumed to bind nothing.
- `getByUnionId` gives an input sequence of rows, because the repository's
  order is unknown.
- Mobile lookup returns the first matching user. The repository's code is not
  part of this model.
- `createToken` is an opaque token for the user. Its name argument, token
  storage, expiry and revocation are left out.
- Events are only appended to a log. Listeners and dispatch are left out.
- Laravel `Response`, `request()` and `config()` are replaced by datatypes and
  input maps. How an uncaught exception is rendered is left out; it is just
  `Aborted`.
- A new user is assumed to start ACTIVE with empty profile fields, because
  the column defaults are not part of this model.
- Routing is left out: src/ApiServiceProvider.php and src/route.php. Note
  that src/route.php:17 routes `oauth/getUser` to a `getUser` method that
  the controller does not define.
- `quickUserLogin` and `updateUser` are left out because they are empty TODO
  stubs.
- Concurrency is left out, including the race between two inserts of the
  same open id. Every flow is one atomic step.

## Findings

| source | as written | input that shows it | evidently intended | confidence | as-written member | corrected member |
|---|---|---|---|---|---|---|
| src/Controllers/Controller.php:62-66 | the closure captures `$user` by value (`use ($user)`) and its guard `!$item->user_id` is inverted, so `getUserByUnionid` never returns a user (it returns null provided `find` answers null for a null id) and the unionid short-circuit of `login` is dead | one user (id 1) and one binding with unionid "u1" linked to user 1: the lookup for "u1" returns null | return the user linked to a binding with that unionid (`use (&$user)` with `if ($item->user_id)`) | high; not executed | Controller.UnionIdLookupMissesLinkedUser | Controller.UserByUnionIdIntendedIff |
