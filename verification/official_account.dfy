/**
 * `OfficialAccountAuthController`: the OAuth redirect URL, and quick login by
 * an open id obtained from the OAuth callback.
 *
 * `get_wechat_config($app)['app_id']` is the `AccountAppIds` input and
 * `platform_application()->getOauthUrl(...)` the `oauthUrl` input.
 */
module OfficialAccount {
  import opened Wrappers
  import opened Php
  import opened Store
  import opened Controller

  const MissingRedirectUrl := "Missing redirect_url parameters."
  const MissingOpenId := "Missing openid parameters."
  const NoAccountConfig := "get_wechat_config gave no app_id"

  /** The official-account app id `get_wechat_config` yields for each configured app key. */
  type AccountAppIds = map<string, string>

  /** `getRedirectUrl`: the redirect target is checked first, then the app is selected. */
  function RedirectUrl(appIds: AccountAppIds, redirectUrl: Field, app: Field,
                       oauthUrl: (string, string) -> string): (r: Outcome)
    ensures Empty(redirectUrl) ==> r == Responded(Failed(MissingRedirectUrl))
    ensures !Empty(redirectUrl) && AppKey(app) !in appIds ==> r.Aborted?
    ensures r.Responded? && !Refused(r) ==>
      && !Empty(redirectUrl) && AppKey(app) in appIds
      && r.envelope.DataEnvelope? && r.envelope.data == Some(UrlData(oauthUrl(redirectUrl.value, appIds[AppKey(app)])))
    ensures app.None? && !Empty(redirectUrl) && "default" in appIds ==>
      r == Responded(Success(UrlData(oauthUrl(redirectUrl.value, appIds["default"]))))
    ensures TokenHolder(r).None?
  {
    if Empty(redirectUrl) then Responded(Failed(MissingRedirectUrl))
    else
      var key := AppKey(app);
      if key !in appIds then Aborted(NoAccountConfig)
      else Responded(Success(UrlData(oauthUrl(redirectUrl.value, appIds[key]))))
  }

  /** A quick-login request that gets past its configuration and open id checks. */
  predicate QuickLoginProceeds(appIds: AccountAppIds, app: Field, openId: Field) {
    AppKey(app) in appIds && !Empty(openId)
  }

  /** `quickLogin`: the app is selected before the open id is checked; no login event is dispatched. */
  function QuickLogin(store: Store, log: seq<Event>, appIds: AccountAppIds, app: Field, openId: Field): (r: Handled)
    ensures r.log == log && r.store.users == store.users
    ensures AppKey(app) !in appIds ==> r.outcome.Aborted? && r.store == store
    ensures AppKey(app) in appIds && Empty(openId) ==> Refused(r.outcome) && r.store == store
    // an existing binding is never modified, and at most the request's open id is added
    ensures forall k :: k in store.bindings ==> k in r.store.bindings && r.store.bindings[k] == store.bindings[k]
    ensures forall k :: k in r.store.bindings && k !in store.bindings ==> openId == Some(k)
    // an unseen open id gets one new unlinked 'wechat' binding and is handed back
    ensures QuickLoginProceeds(appIds, app, openId) && openId.value !in store.bindings ==>
      && openId.value in r.store.bindings
      && r.store.bindings[openId.value] == Binding(openId.value, "wechat", Some(appIds[AppKey(app)]), None, None)
      && r.outcome == OpenIdOnly(openId.value)
    ensures QuickLoginProceeds(appIds, app, openId) && openId.value in store.bindings
            && !Linked(store.bindings[openId.value]) ==>
      r.outcome == OpenIdOnly(openId.value) && r.store == store
    // a token only for the user the open id's binding is linked to
    ensures TokenHolder(r.outcome).Some? <==>
      && QuickLoginProceeds(appIds, app, openId)
      && openId.value in store.bindings && Linked(store.bindings[openId.value])
      && HasUser(store.users, store.bindings[openId.value].userId.value)
    ensures TokenHolder(r.outcome).Some? ==> TokenHolder(r.outcome) == store.bindings[openId.value].userId
    ensures TokenHolder(r.outcome).Some? ==> TokenType(r.outcome) == Some(Bearer)
  {
    var key := AppKey(app);
    if key !in appIds then Handled(Aborted(NoAccountConfig), store, log)
    else if Empty(openId) then Handled(Responded(Failed(MissingOpenId)), store, log)
    else
      var openid := openId.value;
      var bound :=
        if openid in store.bindings then store
        else store.(bindings := store.bindings[openid := Binding(openid, "wechat", Some(appIds[key]), None, None)]);
      var b := bound.bindings[openid];
      if !Linked(b) then Handled(OpenIdOnly(openid), bound, log)
      else match Find(bound.users, b.userId)
        case None => Handled(Aborted(NoSuchUser), bound, log)
        case Some(id) => Handled(Grant(id, None), bound, log)
  }

  /** Quick login is idempotent: a repeated request answers the same and changes nothing more. */
  lemma QuickLoginTwice(store: Store, log: seq<Event>, appIds: AccountAppIds, app: Field, openId: Field)
    ensures var r1 := QuickLogin(store, log, appIds, app, openId);
            var r2 := QuickLogin(r1.store, r1.log, appIds, app, openId);
            r2 == r1
  {
  }

  /**
   * On a consistent store quick login keeps the store consistent, and the only
   * way it aborts is an app with no configuration.
   */
  lemma QuickLoginKeepsValid(store: Store, log: seq<Event>, appIds: AccountAppIds, app: Field, openId: Field)
    requires Valid(store)
    ensures var r := QuickLogin(store, log, appIds, app, openId);
      Valid(r.store) && (r.outcome.Aborted? <==> AppKey(app) !in appIds)
  {
  }

  /**
   * `getRedirectUrl` and `quickLogin` select the official account the same
   * way: the OAuth URL is built from the app id that quick login then stores
   * on the new binding of an open id it has not seen, and with a redirect
   * target given, the redirect URL aborts only when quick login aborts too.
   */
  lemma RedirectUrlMatchesQuickLogin(store: Store, log: seq<Event>, appIds: AccountAppIds, app: Field,
                                     openId: Field, redirectUrl: Field, oauthUrl: (string, string) -> string)
    ensures QuickLoginProceeds(appIds, app, openId) && openId.value !in store.bindings && !Empty(redirectUrl) ==>
      var q := QuickLogin(store, log, appIds, app, openId);
      q.store.bindings[openId.value].appId.Some? &&
      RedirectUrl(appIds, redirectUrl, app, oauthUrl) ==
        Responded(Success(UrlData(oauthUrl(redirectUrl.value, q.store.bindings[openId.value].appId.value))))
    ensures !Empty(redirectUrl) && RedirectUrl(appIds, redirectUrl, app, oauthUrl).Aborted? ==>
      QuickLogin(store, log, appIds, app, openId).outcome.Aborted?
    ensures Valid(store) && !Empty(redirectUrl) ==>
      (RedirectUrl(appIds, redirectUrl, app, oauthUrl).Aborted? <==>
       QuickLogin(store, log, appIds, app, openId).outcome.Aborted?)
  {
    if Valid(store) {
      QuickLoginKeepsValid(store, log, appIds, app, openId);
    }
  }
}
