/**
 * `AuthController::smsLogin`: log in by mobile and SMS code, optionally
 * binding the WeChat open id the client already holds.
 *
 * `Sms::checkCode($mobile, $code)` is the `codeOk` input; the config value
 * `wechat.mini_program.default.app_id` is `bindAppId`; the profile that
 * `platform_application()->getUser(...)` fetches is `profile`.
 */
module Auth {
  import opened Wrappers
  import opened Php
  import opened Store
  import opened Controller

  const WrongCode := "验证码错误"
  const AccountForbidden := "您的账号已被禁用，联系网站管理员或客服！"
  const NoBinding := "read of property type on null"
  const ProfileFailed := "getUser threw"
  const Male := "男"
  const Female := "女"

  /** The WeChat user profile: `nickname`, `sex`, `headimgurl`, `city`. */
  datatype WechatProfile = WechatProfile(nickname: Field, sex: Option<int>, headimgurl: Field, city: Field)

  /** The sex label stored on the user: 1 is male, every other value (or none) female. */
  function SexLabel(sex: Option<int>): (r: string)
    ensures r == Male <==> sex == Some(1)
    ensures r == Male || r == Female
  {
    if sex == Some(1) then Male else Female
  }

  /** The first user with this mobile exists and is FORBIDDEN. */
  predicate ForbiddenMobile(users: seq<User>, mobile: string) {
    var found := UserByMobile(users, mobile);
    found.Some? && users[found.value - 1].status == Forbidden
  }

  /**
   * How the open-id step of `smsLogin` ends: it completes, or an uncaught
   * error stops the request, keeping whatever was written before it.
   */
  datatype Step = Done(store: Store) | Stopped(reason: string, store: Store)

  /**
   * The open-id step of `smsLogin` for a resolved user: the binding fetched by
   * open id is linked to the user (it exists, so `bindPlatform` keeps its type
   * and app id), and only a 'wechat' binding then fetches the WeChat profile and overwrites
   * the user's profile with it. The step stops when no binding has that open
   * id (reading its `type` aborts), or when a 'wechat' binding's profile
   * cannot be fetched (`getUser` throws after the binding was written).
   */
  function BindAndEnrich(s: Store, id: UserId, openId: string, bindAppId: Field,
                         profile: Option<WechatProfile>): (r: Step)
    requires HasUser(s.users, id)
    ensures r.Stopped? <==>
      openId !in s.bindings || (s.bindings[openId].kind == "wechat" && profile.None?)
    ensures openId !in s.bindings ==> r == Stopped(NoBinding, s)
    ensures openId in s.bindings ==>
      r.store.bindings == s.bindings[openId := s.bindings[openId].(userId := Some(id))]
    ensures |r.store.users| == |s.users|
    ensures forall i :: 0 <= i < |s.users| && i != id - 1 ==> r.store.users[i] == s.users[i]
    ensures r.Done? && s.bindings[openId].kind == "wechat" ==>
      var p := profile.value;
      r.store.users[id - 1] ==
        s.users[id - 1].(nickName := p.nickname, sex := Some(SexLabel(p.sex)), avatar := p.headimgurl, city := p.city)
    ensures r.Stopped? || s.bindings[openId].kind != "wechat" ==> r.store.users == s.users
  {
    if openId !in s.bindings then Stopped(NoBinding, s)
    else
      var kind := s.bindings[openId].kind;
      var bound := BindPlatform(s, id, Some(openId), bindAppId, kind);
      if kind != "wechat" then Done(bound)
      else match profile
        case None => Stopped(ProfileFailed, bound)
        case Some(p) =>
          Done(UpdateProfile(bound, id, p.nickname, Some(SexLabel(p.sex)), p.headimgurl, p.city))
  }

  /** `smsLogin`. It dispatches no event, so the log never grows. */
  function SmsLogin(store: Store, log: seq<Event>, mobile: string, codeOk: bool, openId: Field,
                    bindAppId: Field, profile: Option<WechatProfile>): (r: Handled)
    ensures r.log == log
    // a wrong code is refused before any user is looked up or created
    ensures !codeOk ==> r.outcome == Responded(Failed(WrongCode)) && r.store == store
    // a FORBIDDEN user is refused, and nothing changes
    ensures codeOk && ForbiddenMobile(store.users, mobile) ==>
      r.outcome == Responded(Failed(AccountForbidden)) && r.store == store
    // a token is handed out exactly when the code is right, the user is not
    // forbidden, and any open id has a binding whose profile, if needed, came back
    ensures TokenHolder(r.outcome).Some? <==>
      && codeOk && !ForbiddenMobile(store.users, mobile)
      && (|| Empty(openId)
          || (openId.value in store.bindings && (store.bindings[openId.value].kind != "wechat" || profile.Some?)))
    // the token is a Bearer token for the first user with the mobile, who is not forbidden
    ensures TokenHolder(r.outcome).Some? ==>
      var id := TokenHolder(r.outcome).value;
      && TokenType(r.outcome) == Some(Bearer)
      && id == ResolveByMobile(store, mobile).id
      && HasUser(r.store.users, id) && r.store.users[id - 1].status != Forbidden
      && NewUserFlag(r.outcome) == Some(ResolveByMobile(store, mobile).isNew)
    // with no open id, no binding and no profile changes
    ensures Empty(openId) ==>
      r.store == (if codeOk && !ForbiddenMobile(store.users, mobile)
                  then ResolveByMobile(store, mobile).store
                  else store)
    // with an open id, the step above runs on the resolved user; when it stops,
    // the request aborts and keeps what the step had written
    ensures codeOk && !ForbiddenMobile(store.users, mobile) && !Empty(openId) ==>
      var resolved := ResolveByMobile(store, mobile);
      match BindAndEnrich(resolved.store, resolved.id, openId.value, bindAppId, profile)
      case Stopped(_, after) => r.outcome.Aborted? && r.store == after
      case Done(after) => r.store == after
  {
    if !codeOk then Handled(Responded(Failed(WrongCode)), store, log)
    else
      var resolved := ResolveByMobile(store, mobile);
      var id := resolved.id;
      if resolved.store.users[id - 1].status == Forbidden then
        Handled(Responded(Failed(AccountForbidden)), resolved.store, log)
      else if Empty(openId) then
        Handled(Grant(id, Some(resolved.isNew)), resolved.store, log)
      else match BindAndEnrich(resolved.store, id, openId.value, bindAppId, profile)
        case Stopped(reason, after) => Handled(Aborted(reason), after, log)
        case Done(after) => Handled(Grant(id, Some(resolved.isNew)), after, log)
  }

  /**
   * A user is created iff no user had the mobile, and `is_new_user` says
   * exactly that; a created user holds only the mobile and is active.
   */
  lemma SmsLoginCreatesIffAbsent(store: Store, log: seq<Event>, mobile: string, codeOk: bool, openId: Field,
                                 bindAppId: Field, profile: Option<WechatProfile>)
    requires TokenHolder(SmsLogin(store, log, mobile, codeOk, openId, bindAppId, profile).outcome).Some?
    ensures var r := SmsLogin(store, log, mobile, codeOk, openId, bindAppId, profile);
      var absent := forall i :: 0 <= i < |store.users| ==> store.users[i].mobile != Some(mobile);
      && (NewUserFlag(r.outcome) == Some(true) <==> absent)
      && |r.store.users| == (if absent then |store.users| + 1 else |store.users|)
      && r.store.users[TokenHolder(r.outcome).value - 1].mobile == Some(mobile)
  {
    var r := SmsLogin(store, log, mobile, codeOk, openId, bindAppId, profile);
    var resolved := ResolveByMobile(store, mobile);
    if !Empty(openId) {
      assert BindAndEnrich(resolved.store, resolved.id, openId.value, bindAppId, profile).Done?;
    }
  }

  /**
   * What a granted SMS login leaves behind for the next one: the resolved
   * user keeps its mobile and status, no user is added, and the open id's
   * binding is still there with the same type.
   */
  lemma SmsLoginGrantedKeeps(store: Store, log: seq<Event>, mobile: string, openId: Field,
                             bindAppId: Field, profile: Option<WechatProfile>)
    requires TokenHolder(SmsLogin(store, log, mobile, true, openId, bindAppId, profile).outcome).Some?
    ensures var r1 := SmsLogin(store, log, mobile, true, openId, bindAppId, profile);
            var resolved := ResolveByMobile(store, mobile);
      && |r1.store.users| == |resolved.store.users|
      && (forall i :: 0 <= i < |r1.store.users| ==> r1.store.users[i].mobile == resolved.store.users[i].mobile)
      && r1.store.users[resolved.id - 1].status == resolved.store.users[resolved.id - 1].status
      && (!Empty(openId) ==>
            openId.value in r1.store.bindings && openId.value in store.bindings
            && r1.store.bindings[openId.value].kind == store.bindings[openId.value].kind
            && (store.bindings[openId.value].kind != "wechat" || profile.Some?))
  {
    var resolved := ResolveByMobile(store, mobile);
    if !Empty(openId) {
      var step := BindAndEnrich(resolved.store, resolved.id, openId.value, bindAppId, profile);
      assert step.Done?;
    }
  }

  /**
   * SMS login twice with the same mobile and open id: the second call is
   * granted a token for the same user, with `is_new_user` false, and creates
   * no user.
   */
  lemma SmsLoginTwice(store: Store, log: seq<Event>, mobile: string, openId: Field,
                      bindAppId: Field, profile: Option<WechatProfile>)
    requires TokenHolder(SmsLogin(store, log, mobile, true, openId, bindAppId, profile).outcome).Some?
    ensures var r1 := SmsLogin(store, log, mobile, true, openId, bindAppId, profile);
            var r2 := SmsLogin(r1.store, r1.log, mobile, true, openId, bindAppId, profile);
      && TokenHolder(r2.outcome) == TokenHolder(r1.outcome)
      && NewUserFlag(r2.outcome) == Some(false)
      && |r2.store.users| == |r1.store.users|
  {
    var r1 := SmsLogin(store, log, mobile, true, openId, bindAppId, profile);
    var resolved := ResolveByMobile(store, mobile);
    var id := resolved.id;
    SmsLoginGrantedKeeps(store, log, mobile, openId, bindAppId, profile);
    var again := ResolveByMobile(r1.store, mobile);
    assert r1.store.users[again.id - 1].mobile == Some(mobile);
    assert resolved.store.users[again.id - 1].mobile == Some(mobile);
    assert again.id == id;
    assert !ForbiddenMobile(r1.store.users, mobile);
  }

  /** SMS login keeps a consistent store consistent. */
  lemma SmsLoginKeepsValid(store: Store, log: seq<Event>, mobile: string, codeOk: bool, openId: Field,
                           bindAppId: Field, profile: Option<WechatProfile>)
    requires Valid(store)
    ensures Valid(SmsLogin(store, log, mobile, codeOk, openId, bindAppId, profile).store)
  {
    if codeOk {
      var resolved := ResolveByMobile(store, mobile);
      ResolveByMobileKeepsValid(store, mobile);
      if !Empty(openId) && openId.value in resolved.store.bindings {
        var kind := resolved.store.bindings[openId.value].kind;
        var bound := BindPlatform(resolved.store, resolved.id, openId, bindAppId, kind);
        BindPlatformKeepsValid(resolved.store, resolved.id, openId, bindAppId, kind);
        if kind == "wechat" && profile.Some? {
          var p := profile.value;
          UpdateProfileKeepsValid(bound, resolved.id, p.nickname, Some(SexLabel(p.sex)), p.headimgurl, p.city);
        }
      }
    }
  }

  /**
   * An example: on an empty store the first SMS login with mobile
   * 13800000000 creates user 1 and reports a new user; the second reports
   * the same user, not new.
   */
  lemma SmsLoginScenario()
    ensures var empty := Store([], map[]);
            var profile := Some(WechatProfile(None, None, None, None));
            var r1 := SmsLogin(empty, [], "13800000000", true, None, None, profile);
            var r2 := SmsLogin(r1.store, r1.log, "13800000000", true, None, None, profile);
      && TokenHolder(r1.outcome) == Some(1) && NewUserFlag(r1.outcome) == Some(true)
      && r1.store.users == [NewUser("13800000000")]
      && TokenHolder(r2.outcome) == Some(1) && NewUserFlag(r2.outcome) == Some(false)
  {
  }

  /**
   * A 'wechat' binding whose profile cannot be fetched: the request aborts
   * with no token, but the user it created and the binding it relinked stay.
   */
  lemma SmsLoginProfileFailureKeepsWrites()
    ensures var store := Store([], map["o1" := Binding("o1", "wechat", None, None, None)]);
            var r := SmsLogin(store, [], "13800000000", true, Some("o1"), Some("wx1"), None);
      && r.outcome.Aborted? && TokenHolder(r.outcome).None?
      && r.store.users == [NewUser("13800000000")]
      && r.store.bindings["o1"].userId == Some(1)
  {
  }
}
