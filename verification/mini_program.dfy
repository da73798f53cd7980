/**
 * `MiniProgramLoginController`: silent login by code, the second onboarding
 * step that binds a mobile, and the code-to-openid exchange used by payment.
 *
 * The WeChat calls are foreign: the result of `auth->session($code)` is the
 * `Session` input, the result of `encryptor->decryptData(...)` is the
 * `Decryption` input, and the rows `getByUnionId` returned are `unionRows`.
 */
module MiniProgram {
  import opened Wrappers
  import opened Php
  import opened Store
  import opened Controller

  const MissingCode := "missing code parameters."
  const OpenIdFailed := "获取openid失败."
  const SessionKeyFailed := "获取 session_key 失败."
  const PhoneFailed := "获取手机号失败."
  const MissingCodeForPayment := "缺失code"
  const ConfigMissing := "please set wechat miniprogram account."
  const DecryptFailed := "decryptData threw"

  /** `ibrand.wechat.mini_program.<app>.app_id` and `.secret`. */
  datatype AppConfig = AppConfig(appId: Field, secret: Field)

  /** The configured mini-programs, by app key. */
  type Configs = map<string, AppConfig>

  /** The keys of the array `auth->session($code)` returned; None where a key is not set. */
  datatype Session = Session(openid: Field, unionid: Field, sessionKey: Field)

  /** `encryptor->decryptData(...)`: it throws, or yields an array whose `purePhoneNumber` may be unset. */
  datatype Decryption = DecryptThrows | Decrypted(purePhoneNumber: Field)

  /**
   * `getMiniprogramApp` followed by `getMiniprogramAppId`: the app id of the
   * selected mini-program, or None when `getMiniprogramApp` throws because its
   * app id or secret is not set (missing, "" or "0").
   */
  function ConfiguredAppId(configs: Configs, app: Field): (r: Option<string>)
    ensures r.Some? <==>
      AppKey(app) in configs && !Empty(configs[AppKey(app)].appId) && !Empty(configs[AppKey(app)].secret)
    ensures r.Some? ==> configs[AppKey(app)].appId == r && r.value != "" && r.value != "0"
  {
    var key := AppKey(app);
    if key in configs && !Empty(configs[key].appId) && !Empty(configs[key].secret) then configs[key].appId else None
  }

  /** A request to `login` that gets past its code, configuration and openid checks. */
  predicate LoginProceeds(configs: Configs, app: Field, code: Field, session: Session) {
    !Empty(code) && ConfiguredAppId(configs, app).Some? && session.openid.Some?
  }

  /**
   * The unionid update of `login` on an existing binding: the session's
   * unionid is written only when one was returned and the stored one is empty.
   */
  function BackfillUnionId(b: Binding, unionid: Field): (r: Binding)
    ensures r.(unionid := b.unionid) == b
    ensures !Empty(b.unionid) ==> r == b
    ensures unionid.None? ==> r == b
    ensures unionid.Some? && Empty(b.unionid) ==> r.unionid == unionid
  {
    if unionid.Some? && Empty(b.unionid) then b.(unionid := unionid) else b
  }

  /** `after` is `before` with at most its unionid filled in, and a non-empty unionid kept. */
  predicate OnlyUnionIdFilled(before: Binding, after: Binding) {
    && after.(unionid := before.unionid) == before
    && (!Empty(before.unionid) ==> after.unionid == before.unionid)
  }

  /**
   * The body of `login` given what `getUserByUnionid` answered: `unionUser` is
   * only consulted when the session returned a unionid.
   */
  function LoginFlow(store: Store, log: seq<Event>, configs: Configs, app: Field, code: Field,
                     session: Session, unionUser: Option<UserId>): (r: Handled)
    ensures r.store.users == store.users
    // a user found by unionid is granted a token before any binding is read or written
    ensures LoginProceeds(configs, app, code, session) && session.unionid.Some? && unionUser.Some? ==>
      r == Handled(Grant(unionUser.value, None), store, log + [UserLogin(unionUser.value)])
    // a token is only ever granted to the user found by unionid or to an existing user
    ensures TokenHolder(r.outcome).Some? ==>
      || (session.unionid.Some? && TokenHolder(r.outcome) == unionUser)
      || HasUser(store.users, TokenHolder(r.outcome).value)
  {
    if Empty(code) then Handled(Responded(Failed(MissingCode)), store, log)
    else match ConfiguredAppId(configs, app)
      case None => Handled(Aborted(ConfigMissing), store, log)
      case Some(appId) =>
        match session.openid
        case None => Handled(Responded(Failed(OpenIdFailed)), store, log)
        case Some(openid) =>
          if session.unionid.Some? && unionUser.Some? then
            Handled(Grant(unionUser.value, None), store, log + [UserLogin(unionUser.value)])
          else if openid !in store.bindings then
            var created := Binding(openid, "miniprogram", Some(appId), Some(session.unionid.GetOr("")), None);
            Handled(OpenIdOnly(openid), store.(bindings := store.bindings[openid := created]), log)
          else
            var b := BackfillUnionId(store.bindings[openid], session.unionid);
            var saved := store.(bindings := store.bindings[openid := b]);
            if !Linked(b) then Handled(OpenIdOnly(openid), saved, log)
            else match Find(saved.users, b.userId)
              case None => Handled(Aborted(NoSuchUser), saved, log)
              case Some(id) => Handled(Grant(id, None), saved, log + [UserLogin(id)])
  }

  /**
   * `login` as written. Its unionid short-circuit never fires, because
   * `getUserByUnionid` as written always answers null.
   */
  function Login(store: Store, log: seq<Event>, configs: Configs, app: Field, code: Field,
                 session: Session, unionRows: seq<Binding>): (r: Handled)
    // no user is ever created or changed
    ensures r.store.users == store.users
    // input failures change nothing and hand out no token
    ensures Empty(code) ==> Refused(r.outcome) && r.store == store && r.log == log
    ensures !LoginProceeds(configs, app, code, session) ==>
      r.store == store && r.log == log && TokenHolder(r.outcome).None?
    ensures !Empty(code) && ConfiguredAppId(configs, app).Some? && session.openid.None? ==> Refused(r.outcome)
    // existing bindings change at most by filling an empty unionid; the only binding added is the session's
    ensures forall k :: k in store.bindings ==>
      k in r.store.bindings && OnlyUnionIdFilled(store.bindings[k], r.store.bindings[k])
    ensures forall k :: k in r.store.bindings && k !in store.bindings ==> session.openid == Some(k)
    ensures forall k :: k in store.bindings && session.openid != Some(k) ==> r.store.bindings[k] == store.bindings[k]
    // a known open id has its empty stored unionid filled from the session
    ensures LoginProceeds(configs, app, code, session) && session.openid.value in store.bindings ==>
      r.store.bindings[session.openid.value] == BackfillUnionId(store.bindings[session.openid.value], session.unionid)
    // an unseen open id gets exactly one new, unlinked binding and no token
    ensures LoginProceeds(configs, app, code, session) && session.openid.value !in store.bindings ==>
      && r.outcome == OpenIdOnly(session.openid.value) && r.log == log
      && r.store.bindings.Keys == store.bindings.Keys + {session.openid.value}
      && r.store.bindings[session.openid.value] ==
           Binding(session.openid.value, "miniprogram", ConfiguredAppId(configs, app),
                   Some(session.unionid.GetOr("")), None)
    // a known but unlinked open id gets itself back and no token
    ensures LoginProceeds(configs, app, code, session) && session.openid.value in store.bindings
            && !Linked(store.bindings[session.openid.value]) ==>
      r.outcome == OpenIdOnly(session.openid.value) && r.log == log
    // a token only for the user the session's binding is linked to, with one login event
    ensures TokenHolder(r.outcome).Some? <==>
      && LoginProceeds(configs, app, code, session)
      && session.openid.value in store.bindings && Linked(store.bindings[session.openid.value])
      && HasUser(store.users, store.bindings[session.openid.value].userId.value)
    ensures TokenHolder(r.outcome).Some? ==>
      && TokenHolder(r.outcome) == store.bindings[session.openid.value].userId
      && r.log == log + [UserLogin(TokenHolder(r.outcome).value)]
    ensures TokenHolder(r.outcome).None? ==> r.log == log
    ensures TokenHolder(r.outcome).Some? ==> TokenType(r.outcome) == Some(Bearer)
  {
    LoginFlow(store, log, configs, app, code, session, UserByUnionIdAsWritten(store.users, unionRows))
  }

  /**
   * INTENDED VARIANT of `login`, not the code as written: the same flow with
   * the unionid lookup the comment at its first step describes.
   */
  function LoginIntended(store: Store, log: seq<Event>, configs: Configs, app: Field, code: Field,
                         session: Session, unionRows: seq<Binding>): (r: Handled)
    ensures LoginProceeds(configs, app, code, session) && session.unionid.Some?
            && UserByUnionIdIntended(store.users, unionRows).Some? ==>
      && r.store == store
      && TokenHolder(r.outcome) == UserByUnionIdIntended(store.users, unionRows)
      && r.log == log + [UserLogin(TokenHolder(r.outcome).value)]
    ensures !(session.unionid.Some? && UserByUnionIdIntended(store.users, unionRows).Some?) ==>
      r == Login(store, log, configs, app, code, session, unionRows)
  {
    LoginFlow(store, log, configs, app, code, session, UserByUnionIdIntended(store.users, unionRows))
  }

  /** `mobileLogin`: the session key decrypts the phone number, then get-or-create, token and bind. */
  function MobileLogin(store: Store, log: seq<Event>, configs: Configs, app: Field, session: Session,
                       decryption: Decryption, openId: Field): (r: Handled)
    // every failure before the phone number is known changes nothing and hands out no token
    ensures ConfiguredAppId(configs, app).None? ==> r.outcome.Aborted?
    ensures TokenHolder(r.outcome).None? ==> r.store == store && r.log == log
    ensures ConfiguredAppId(configs, app).Some? && session.sessionKey.None? ==> Refused(r.outcome)
    ensures (ConfiguredAppId(configs, app).Some? && session.sessionKey.Some? && decryption.Decrypted?
             && decryption.purePhoneNumber.None?) ==> Refused(r.outcome)
    ensures TokenHolder(r.outcome).Some? <==>
      ConfiguredAppId(configs, app).Some? && session.sessionKey.Some?
      && decryption.Decrypted? && decryption.purePhoneNumber.Some?
    // the token is for the first user with the decrypted mobile, created iff there was none
    ensures TokenHolder(r.outcome).Some? ==>
      var id := TokenHolder(r.outcome).value;
      var mobile := decryption.purePhoneNumber.value;
      && TokenType(r.outcome) == Some(Bearer)
      && HasUser(r.store.users, id) && r.store.users[id - 1].mobile == Some(mobile)
      && (forall i :: 0 <= i < id - 1 ==> r.store.users[i].mobile != Some(mobile))
      && (NewUserFlag(r.outcome) == Some(true) <==>
            forall i :: 0 <= i < |store.users| ==> store.users[i].mobile != Some(mobile))
      && NewUserFlag(r.outcome).Some?
      && r.store.users == (if NewUserFlag(r.outcome) == Some(true)
                           then store.users + [NewUser(mobile)]
                           else store.users)
      && r.log == log + [UserLogin(id)]
    // the request's open id is bound to that user: a new binding is a mini-program
    // binding with the app's id, an existing one keeps everything but its user id;
    // no other binding changes
    ensures TokenHolder(r.outcome).Some? && openId.Some? ==>
      openId.value in r.store.bindings &&
      var b := r.store.bindings[openId.value];
      && b.userId == TokenHolder(r.outcome)
      && (openId.value !in store.bindings ==>
            b.kind == "miniprogram" && b.appId == ConfiguredAppId(configs, app) && b.unionid.None?)
      && (openId.value in store.bindings ==> b == store.bindings[openId.value].(userId := TokenHolder(r.outcome)))
    ensures forall k :: k in store.bindings && Some(k) != openId ==>
      k in r.store.bindings && r.store.bindings[k] == store.bindings[k]
    ensures forall k :: k in r.store.bindings && k !in store.bindings ==> openId == Some(k)
  {
    match ConfiguredAppId(configs, app)
    case None => Handled(Aborted(ConfigMissing), store, log)
    case Some(appId) =>
      if session.sessionKey.None? then Handled(Responded(Failed(SessionKeyFailed)), store, log)
      else match decryption
        case DecryptThrows => Handled(Aborted(DecryptFailed), store, log)
        case Decrypted(phone) =>
          match phone
          case None => Handled(Responded(Failed(PhoneFailed)), store, log)
          case Some(mobile) =>
            var resolved := ResolveByMobile(store, mobile);
            var bound := BindPlatform(resolved.store, resolved.id, openId, Some(appId), "miniprogram");
            Handled(Grant(resolved.id, Some(resolved.isNew)), bound, log + [UserLogin(resolved.id)])
  }

  /** `getOpenIdByCode`: reads no store and writes none; the configuration is checked before the code. */
  function OpenIdByCode(configs: Configs, app: Field, code: Field, session: Session): (r: Outcome)
    ensures ConfiguredAppId(configs, app).None? ==> r.Aborted?
    ensures ConfiguredAppId(configs, app).Some? && Empty(code) ==> r == Responded(Failed(MissingCodeForPayment))
    ensures ConfiguredAppId(configs, app).Some? && !Empty(code) && session.openid.None? ==> Refused(r)
    ensures r.Responded? && !Refused(r) <==> LoginProceeds(configs, app, code, session)
    ensures LoginProceeds(configs, app, code, session) ==>
      r.envelope.DataEnvelope? && r.envelope.data == Some(PaymentOpenIdData(session.openid.value))
    ensures TokenHolder(r).None?
  {
    if ConfiguredAppId(configs, app).None? then Aborted(ConfigMissing)
    else if Empty(code) then Responded(Failed(MissingCodeForPayment))
    else match session.openid
      case None => Responded(Failed(OpenIdFailed))
      case Some(openid) => Responded(Success(PaymentOpenIdData(openid)))
  }

  // ---------------------------------------------------------------------
  // Properties relating several calls, or a call and the store invariant

  /**
   * All three mini-program actions select their app the same way: a null
   * `request('app')` and the value 'default' select the same configuration,
   * but the value "" is not a fallback to 'default'.
   */
  lemma ConfiguredAppIdDefault(configs: Configs)
    ensures ConfiguredAppId(configs, None) == ConfiguredAppId(configs, Some("default"))
    ensures var only := map["default" := AppConfig(Some("wx1"), Some("secret"))];
      ConfiguredAppId(only, None) == Some("wx1") && ConfiguredAppId(only, Some("")).None?
  {
    var only := map["default" := AppConfig(Some("wx1"), Some("secret"))];
    assert AppKey(Some("")) == "" && "" !in only;
  }

  /**
   * `getOpenIdByCode` accepts exactly the requests `login` gets past its input
   * checks with, and answers with the same open id. The two differ only in
   * the order of their checks: with an empty code and an unconfigured app,
   * `login` refuses the code while `getOpenIdByCode` aborts on the config.
   */
  lemma OpenIdByCodeAgreesWithLogin(store: Store, log: seq<Event>, configs: Configs, app: Field, code: Field,
                                    session: Session, unionRows: seq<Binding>)
    ensures var l := Login(store, log, configs, app, code, session, unionRows);
            var o := OpenIdByCode(configs, app, code, session);
      && (Refused(l.outcome) <==> Refused(o) || (Empty(code) && ConfiguredAppId(configs, app).None?))
      && (o.Aborted? ==> l.outcome.Aborted? || Empty(code))
    ensures Valid(store) ==>
      var l := Login(store, log, configs, app, code, session, unionRows);
      var o := OpenIdByCode(configs, app, code, session);
      && (o.Responded? && !Refused(o) <==> l.outcome.Responded? && !Refused(l.outcome))
      && (o.Responded? && !Refused(o) ==>
            o.envelope.data == Some(PaymentOpenIdData(session.openid.value))
            && (l.outcome == OpenIdOnly(session.openid.value) || TokenHolder(l.outcome).Some?))
  {
    if Valid(store) {
      LoginKeepsValid(store, log, configs, app, code, session, unionRows);
    }
  }

  /** The rows `getByUnionId(unionid)` returns: exactly the store's bindings carrying that unionid. */
  predicate RowsOfUnionId(store: Store, unionid: string, rows: seq<Binding>) {
    && (forall i :: 0 <= i < |rows| ==> rows[i] in store.bindings.Values && rows[i].unionid == Some(unionid))
    && (forall k :: k in store.bindings && store.bindings[k].unionid == Some(unionid) ==> store.bindings[k] in rows)
  }

  /** The unionid branch of `login` is dead: what `getByUnionId` returns makes no difference. */
  lemma LoginIgnoresUnionRows(store: Store, log: seq<Event>, configs: Configs, app: Field, code: Field,
                              session: Session, rows1: seq<Binding>, rows2: seq<Binding>)
    ensures Login(store, log, configs, app, code, session, rows1) ==
            Login(store, log, configs, app, code, session, rows2)
  {
    assert UserByUnionIdAsWritten(store.users, rows1) == UserByUnionIdAsWritten(store.users, rows2);
  }

  /**
   * On a consistent store `login` keeps the store consistent, and the only way
   * it aborts is a mini-program that is not configured.
   */
  lemma LoginKeepsValid(store: Store, log: seq<Event>, configs: Configs, app: Field, code: Field,
                        session: Session, unionRows: seq<Binding>)
    requires Valid(store)
    ensures var r := Login(store, log, configs, app, code, session, unionRows);
      Valid(r.store) && (r.outcome.Aborted? <==> !Empty(code) && ConfiguredAppId(configs, app).None?)
  {
  }

  /**
   * The intended variant keeps the promise of the unionid step: when the
   * session's unionid is carried by a binding linked to a user of a consistent
   * store, a token is issued for a user linked through that unionid, even for
   * an open id never seen before, and no binding is created or changed.
   */
  lemma LoginIntendedGrantsUnionUser(store: Store, log: seq<Event>, configs: Configs, app: Field, code: Field,
                                     session: Session, unionRows: seq<Binding>, linkedOpenId: string)
    requires Valid(store) && LoginProceeds(configs, app, code, session) && session.unionid.Some?
    requires RowsOfUnionId(store, session.unionid.value, unionRows)
    requires linkedOpenId in store.bindings && Linked(store.bindings[linkedOpenId])
    requires store.bindings[linkedOpenId].unionid == session.unionid
    ensures var r := LoginIntended(store, log, configs, app, code, session, unionRows);
      && r.store == store
      && TokenHolder(r.outcome).Some?
      && exists k :: k in store.bindings && store.bindings[k].unionid == session.unionid
                     && store.bindings[k].userId == TokenHolder(r.outcome)
  {
    var b := store.bindings[linkedOpenId];
    assert b in unionRows;
    var i :| 0 <= i < |unionRows| && unionRows[i] == b;
    forall j | 0 <= j < |unionRows| && Linked(unionRows[j]) ensures HasUser(store.users, unionRows[j].userId.value) {
      assert unionRows[j] in store.bindings.Values;
      var k :| k in store.bindings && store.bindings[k] == unionRows[j];
    }
    UserByUnionIdIntendedIff(store.users, unionRows);
    var u := UserByUnionIdIntended(store.users, unionRows);
    var j :| 0 <= j < |unionRows| && Linked(unionRows[j]) && unionRows[j].userId == u;
    assert unionRows[j] in store.bindings.Values;
    var k :| k in store.bindings && store.bindings[k] == unionRows[j];
  }

  /**
   * Mobile login twice with the same phone number: the second call finds the
   * user the first one resolved (or created), reports `is_new_user` false and
   * creates no user.
   */
  lemma MobileLoginTwice(store: Store, log: seq<Event>, configs: Configs, app: Field, session: Session,
                         decryption: Decryption, openId: Field)
    requires ConfiguredAppId(configs, app).Some? && session.sessionKey.Some?
    requires decryption.Decrypted? && decryption.purePhoneNumber.Some?
    ensures var r1 := MobileLogin(store, log, configs, app, session, decryption, openId);
            var r2 := MobileLogin(r1.store, r1.log, configs, app, session, decryption, openId);
      && TokenHolder(r2.outcome) == TokenHolder(r1.outcome)
      && NewUserFlag(r2.outcome) == Some(false)
      && r2.store.users == r1.store.users
  {
    var r1 := MobileLogin(store, log, configs, app, session, decryption, openId);
    var r2 := MobileLogin(r1.store, r1.log, configs, app, session, decryption, openId);
    var id1 := TokenHolder(r1.outcome).value;
    var id2 := TokenHolder(r2.outcome).value;
    assert r1.store.users[id1 - 1].mobile == decryption.purePhoneNumber;
    assert r2.store.users == r1.store.users;
    assert r1.store.users[id2 - 1].mobile == decryption.purePhoneNumber;
  }

  /** On a consistent store `mobileLogin` keeps the store consistent. */
  lemma MobileLoginKeepsValid(store: Store, log: seq<Event>, configs: Configs, app: Field, session: Session,
                              decryption: Decryption, openId: Field)
    requires Valid(store)
    ensures Valid(MobileLogin(store, log, configs, app, session, decryption, openId).store)
  {
    if ConfiguredAppId(configs, app).Some? && session.sessionKey.Some?
       && decryption.Decrypted? && decryption.purePhoneNumber.Some? {
      var resolved := ResolveByMobile(store, decryption.purePhoneNumber.value);
      ResolveByMobileKeepsValid(store, decryption.purePhoneNumber.value);
      BindPlatformKeepsValid(resolved.store, resolved.id, openId, ConfiguredAppId(configs, app), "miniprogram");
    }
  }

  /**
   * `mobileLogin` never looks at a user's status: a FORBIDDEN user whose
   * phone number decrypts is handed a token all the same.
   */
  lemma MobileLoginGrantsForbiddenUser()
    ensures var store := Store([User(Some("13800000000"), Forbidden, None, None, None, None)], map[]);
            var configs := map["default" := AppConfig(Some("wx1"), Some("secret"))];
            var session := Session(Some("o1"), None, Some("key"));
            var r := MobileLogin(store, [], configs, None, session, Decrypted(Some("13800000000")), Some("o1"));
            TokenHolder(r.outcome) == Some(1) && store.users[0].status == Forbidden
  {
  }
}
