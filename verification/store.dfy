/**
 * The two tables the login controllers read and write: users, and platform
 * bindings (one row per WeChat open id). The repositories and the user
 * service that front these tables are not part of this model; the functions
 * here stand for the few calls the controllers make on them.
 */
module Store {
  import opened Wrappers
  import opened Php

  /** Users get auto-increment ids starting at 1: the user with id `i` is `users[i - 1]`. */
  type UserId = nat

  datatype Status = Active | Forbidden

  datatype User = User(
    mobile: Field,
    status: Status,
    nickName: Field,
    sex: Field,
    avatar: Field,
    city: Field)

  /**
   * A platform binding. `kind` is the `type` column ('miniprogram', 'wechat', ...);
   * `userId` is the nullable `user_id` column.
   */
  datatype Binding = Binding(
    openId: string,
    kind: string,
    appId: Field,
    unionid: Field,
    userId: Option<nat>)

  /** Bindings are looked up by open id alone, so they are keyed by it. */
  datatype Store = Store(users: seq<User>, bindings: map<string, Binding>)

  /** PHP's truthiness of `$userBind->user_id`: neither null nor 0. */
  predicate Linked(b: Binding)
    ensures Linked(b) ==> b.userId.Some? && b.userId.value >= 1
    ensures b.userId == Some(0) ==> !Linked(b)
  {
    b.userId.Some? && b.userId.value != 0
  }

  /** `id` names a row of the users table. */
  predicate HasUser(users: seq<User>, id: nat) {
    1 <= id <= |users|
  }

  /** A user row as the user repository creates it from `['mobile' => $mobile]`. */
  function NewUser(mobile: string): (u: User)
    ensures u.mobile == Some(mobile) && u.status == Active
    ensures u.nickName.None? && u.sex.None? && u.avatar.None? && u.city.None?
  {
    User(Some(mobile), Active, None, None, None, None)
  }

  /** No two users share a mobile number. */
  predicate MobilesUnique(users: seq<User>) {
    forall i, j :: 0 <= i < j < |users| && users[i].mobile.Some? ==> users[i].mobile != users[j].mobile
  }

  /**
   * The consistency the tables keep: every binding is stored under its own
   * open id, every linked binding points at an existing user, and mobiles are
   * unique among users.
   */
  predicate Valid(s: Store) {
    && (forall k :: k in s.bindings ==> s.bindings[k].openId == k)
    && (forall k :: k in s.bindings && Linked(s.bindings[k]) ==> HasUser(s.users, s.bindings[k].userId.value))
    && MobilesUnique(s.users)
  }

  /**
   * The user repository's `find($id)`: the user with that id, or null. Its
   * code is not part of this model; it is assumed to answer null, not to
   * throw, for a null, 0 or unknown id.
   */
  function Find(users: seq<User>, id: Option<nat>): (r: Option<UserId>)
    ensures r.Some? <==> id.Some? && HasUser(users, id.value)
    ensures r.Some? ==> r.value == id.value
  {
    if id.Some? && 1 <= id.value <= |users| then Some(id.value) else None
  }

  /** The first user, from position `from` on, whose mobile is `mobile`. */
  function FirstWithMobile(users: seq<User>, mobile: string, from: nat): (r: Option<UserId>)
    requires from <= |users|
    ensures r.Some? ==> from < r.value <= |users| && users[r.value - 1].mobile == Some(mobile)
    ensures r.Some? ==> forall i :: from <= i < r.value - 1 ==> users[i].mobile != Some(mobile)
    ensures r.None? <==> forall i :: from <= i < |users| ==> users[i].mobile != Some(mobile)
    decreases |users| - from
  {
    if from == |users| then None
    else if users[from].mobile == Some(mobile) then Some(from + 1)
    else FirstWithMobile(users, mobile, from + 1)
  }

  /** The user repository's `getUserByCredentials(['mobile' => $mobile])`. */
  function UserByMobile(users: seq<User>, mobile: string): (r: Option<UserId>)
    ensures r.Some? ==> HasUser(users, r.value) && users[r.value - 1].mobile == Some(mobile)
    ensures r.Some? ==> forall i :: 0 <= i < r.value - 1 ==> users[i].mobile != Some(mobile)
    ensures r.None? <==> forall i :: 0 <= i < |users| ==> users[i].mobile != Some(mobile)
  {
    FirstWithMobile(users, mobile, 0)
  }

  /** A user resolved from a mobile number, whether it was created, and the store afterwards. */
  datatype Resolved = Resolved(id: UserId, isNew: bool, store: Store)

  /**
   * Get-or-create by mobile, as both the SMS and the mini-program mobile flow
   * do it: the first user with that mobile, or a new user holding only it.
   */
  function ResolveByMobile(s: Store, mobile: string): (r: Resolved)
    ensures r.isNew <==> forall i :: 0 <= i < |s.users| ==> s.users[i].mobile != Some(mobile)
    ensures HasUser(r.store.users, r.id) && r.store.users[r.id - 1].mobile == Some(mobile)
    ensures forall i :: 0 <= i < r.id - 1 ==> r.store.users[i].mobile != Some(mobile)
    ensures r.isNew ==> r.store.users == s.users + [NewUser(mobile)]
    ensures !r.isNew ==> r.store == s
    ensures r.store.bindings == s.bindings
  {
    match UserByMobile(s.users, mobile)
    case Some(id) => Resolved(id, false, s)
    case None => Resolved(|s.users| + 1, true, s.(users := s.users + [NewUser(mobile)]))
  }

  /**
   * `UserService::bindPlatform($userId, $openId, $appId, $type)`. Its code is
   * not part of this model; this is the contract assumed for it: create, or
   * link an existing binding. A binding for the open id that is absent is
   * created with the given type and app id, linked to the user; one that
   * exists only has its user id set, keeping its type, app id and unionid. A
   * null open id binds nothing.
   */
  function BindPlatform(s: Store, userId: UserId, openId: Field, appId: Field, kind: string): (r: Store)
    ensures r.users == s.users
    ensures openId.None? ==> r == s
    ensures openId.Some? ==> r.bindings.Keys == s.bindings.Keys + {openId.value}
    ensures openId.Some? ==> r.bindings[openId.value].userId == Some(userId)
    ensures openId.Some? && openId.value in s.bindings ==>
      r.bindings[openId.value] == s.bindings[openId.value].(userId := Some(userId))
    ensures openId.Some? && openId.value !in s.bindings ==>
      r.bindings[openId.value] == Binding(openId.value, kind, appId, None, Some(userId))
    ensures forall k :: k in s.bindings && Some(k) != openId ==> k in r.bindings && r.bindings[k] == s.bindings[k]
  {
    match openId
    case None => s
    case Some(o) =>
      var b := if o in s.bindings
        then s.bindings[o].(userId := Some(userId))
        else Binding(o, kind, appId, None, Some(userId));
      s.(bindings := s.bindings[o := b])
  }

  /** The user repository's `update([...profile...], $id)`: overwrites the four profile fields. */
  function UpdateProfile(s: Store, id: UserId, nickName: Field, sex: Field, avatar: Field, city: Field): (r: Store)
    requires HasUser(s.users, id)
    ensures |r.users| == |s.users| && r.bindings == s.bindings
    ensures r.users[id - 1] == s.users[id - 1].(nickName := nickName, sex := sex, avatar := avatar, city := city)
    ensures forall i :: 0 <= i < |s.users| && i != id - 1 ==> r.users[i] == s.users[i]
  {
    var u := s.users[id - 1];
    s.(users := s.users[id - 1 := u.(nickName := nickName, sex := sex, avatar := avatar, city := city)])
  }

  /** Creating a user only for an unseen mobile keeps mobiles unique. */
  lemma ResolveByMobileKeepsValid(s: Store, mobile: string)
    requires Valid(s)
    ensures Valid(ResolveByMobile(s, mobile).store)
  {
    var r := ResolveByMobile(s, mobile);
    if r.isNew {
      forall i, j | 0 <= i < j < |r.store.users| && r.store.users[i].mobile.Some?
        ensures r.store.users[i].mobile != r.store.users[j].mobile
      {
        if j == |s.users| {
          assert r.store.users[i] == s.users[i];
        }
      }
    }
  }

  /**
   * Resolving the same mobile twice yields the same user, and the second time
   * nothing is created and nothing changes.
   */
  lemma ResolveByMobileTwice(s: Store, mobile: string)
    ensures var r1 := ResolveByMobile(s, mobile);
            var r2 := ResolveByMobile(r1.store, mobile);
            r2.id == r1.id && !r2.isNew && r2.store == r1.store
  {
    var r1 := ResolveByMobile(s, mobile);
    var r2 := ResolveByMobile(r1.store, mobile);
    assert r1.store.users[r1.id - 1].mobile == Some(mobile);
    assert !r2.isNew;
    assert r1.store.users[r2.id - 1].mobile == Some(mobile);
  }

  /** Binding a platform to an existing user keeps the tables consistent. */
  lemma BindPlatformKeepsValid(s: Store, userId: UserId, openId: Field, appId: Field, kind: string)
    requires Valid(s) && HasUser(s.users, userId)
    ensures Valid(BindPlatform(s, userId, openId, appId, kind))
  {
  }

  /** A profile update leaves mobiles, and so their uniqueness, alone. */
  lemma UpdateProfileKeepsValid(s: Store, id: UserId, nickName: Field, sex: Field, avatar: Field, city: Field)
    requires Valid(s) && HasUser(s.users, id)
    ensures Valid(UpdateProfile(s, id, nickName, sex, avatar, city))
  {
    var r := UpdateProfile(s, id, nickName, sex, avatar, city);
    assert forall i :: 0 <= i < |r.users| ==> r.users[i].mobile == s.users[i].mobile;
  }
}
