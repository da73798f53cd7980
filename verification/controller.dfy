/**
 * What the three login controllers share through their base controller: the
 * success and failure response envelopes, the access token, the login event,
 * and the lookup of a user by WeChat unionid.
 */
module Controller {
  import opened Wrappers
  import opened Php
  import opened Store

  const HttpOk := 200
  const HttpBadRequest := 400
  const Bearer := "Bearer"

  /** `createToken(...)->accessToken`: an opaque credential for exactly one user. */
  datatype Token = AccessToken(holder: UserId)

  /** The `data` arrays the controllers hand to `success`. */
  datatype Payload =
    | NoData                                                               // []
    | OpenIdData(openId: string)                                           // ['open_id' => ...]
    | PaymentOpenIdData(openid: string)                                    // compact('openid')
    | UrlData(url: string)                                                 // ['url' => ...]
    | TokenData(tokenType: string, accessToken: Token, isNewUser: Option<bool>)

  /** The JSON body of a response: `{status, code, data}` or `{status, code, message}`. */
  datatype Envelope =
    | DataEnvelope(status: bool, code: int, data: Option<Payload>)
    | MessageEnvelope(status: bool, code: int, message: string)

  /** Calling `createToken` on the null that `find` gave for a missing user. */
  const NoSuchUser := "createToken() called on null"

  /**
   * `request('app') ?? 'default'`: the key selecting one of the configured
   * WeChat apps. Only a missing `app` selects 'default'; an empty one is kept.
   */
  function AppKey(app: Field): (key: string)
    ensures app.None? <==> key == "default" && app != Some("default")
    ensures app.Some? ==> key == app.value
  {
    Coalesce(app, "default")
  }

  /** The event `user.login`, dispatched with the user. */
  datatype Event = UserLogin(user: UserId)

  /**
   * How a request ends: with an envelope, or aborted by an uncaught error (a
   * method called on null, a thrown exception) that the controller never
   * turns into an envelope.
   */
  datatype Outcome = Responded(envelope: Envelope) | Aborted(reason: string)

  /** A handled request: its outcome, the store afterwards, and the event log afterwards. */
  datatype Handled = Handled(outcome: Outcome, store: Store, log: seq<Event>)

  /** `success($data, $code, $status)`: an empty data array is sent as null. */
  function Success(data: Payload := NoData, code: int := HttpOk, status: bool := true): (r: Envelope)
    ensures r.DataEnvelope? && r.status == status && r.code == code
    ensures r.data.None? <==> data == NoData
    ensures r.data.Some? ==> r.data.value == data
  {
    DataEnvelope(status, code, if data == NoData then None else Some(data))
  }

  /** `failed($message, $code, $status)`. */
  function Failed(message: string, code: int := HttpBadRequest, status: bool := false): (r: Envelope)
    ensures r.MessageEnvelope? && r.status == status && r.code == code && r.message == message
  {
    MessageEnvelope(status, code, message)
  }

  /** The request was answered with a `failed` envelope. */
  predicate Refused(o: Outcome) {
    o.Responded? && o.envelope.MessageEnvelope? && !o.envelope.status
  }

  /** The user an access token was handed out for, if the response carries one. */
  function TokenHolder(o: Outcome): Option<UserId> {
    if o.Responded? && o.envelope.DataEnvelope? && o.envelope.data.Some? && o.envelope.data.value.TokenData?
    then Some(o.envelope.data.value.accessToken.holder)
    else None
  }

  /** The `is_new_user` flag of a token response, if it has one. */
  function NewUserFlag(o: Outcome): Option<bool> {
    if o.Responded? && o.envelope.DataEnvelope? && o.envelope.data.Some? && o.envelope.data.value.TokenData?
    then o.envelope.data.value.isNewUser
    else None
  }

  /** The `token_type` of a token response, if it is one. */
  function TokenType(o: Outcome): Option<string> {
    if o.Responded? && o.envelope.DataEnvelope? && o.envelope.data.Some? && o.envelope.data.value.TokenData?
    then Some(o.envelope.data.value.tokenType)
    else None
  }

  /** The response that grants a token, as every login flow builds it. */
  function Grant(id: UserId, isNewUser: Option<bool>): (o: Outcome)
    ensures TokenHolder(o) == Some(id) && NewUserFlag(o) == isNewUser && TokenType(o) == Some(Bearer)
    ensures o.envelope.status && o.envelope.code == HttpOk
  {
    Responded(Success(TokenData(Bearer, AccessToken(id), isNewUser)))
  }

  /** The response that hands back a bare open id, the signal to collect a mobile next. */
  function OpenIdOnly(openId: string): (o: Outcome)
    ensures TokenHolder(o).None? && !Refused(o)
    ensures o.Responded? && o.envelope.DataEnvelope? && o.envelope.data == Some(OpenIdData(openId))
  {
    Responded(Success(OpenIdData(openId)))
  }

  /** A success envelope is never a refusal, whatever its data; a failure envelope always is. */
  lemma EnvelopesDisjoint(data: Payload, message: string)
    ensures !Refused(Responded(Success(data))) && TokenHolder(Responded(Failed(message))).None?
    ensures Refused(Responded(Failed(message))) && Success(data) != Failed(message)
    ensures Success(data).code == HttpOk && Failed(message).code == HttpBadRequest
  {
  }

  // ---------------------------------------------------------------------
  // getUserByUnionid

  /**
   * The closure body of `getUserByUnionid` as written: its guard is inverted,
   * so it calls `find` only for a row whose user_id is null or 0, and leaves
   * its `$user` alone for a linked row. Returns the closure's `$user` after
   * the body.
   */
  function ClosureAsWritten(users: seq<User>, user: Option<UserId>, row: Binding): (r: Option<UserId>)
    ensures Linked(row) ==> r == user
    ensures !Linked(row) ==> r.None?
  {
    if !Linked(row) then Find(users, row.userId) else user
  }

  /** The closure body with the guard the comment describes: a linked row's user is taken. */
  function ClosureIntended(users: seq<User>, user: Option<UserId>, row: Binding): (r: Option<UserId>)
    ensures Linked(row) ==> r == Find(users, row.userId)
    ensures !Linked(row) ==> r == user
  {
    if Linked(row) then Find(users, row.userId) else user
  }

  /**
   * `$binds->each(...)` with a closure that captures `$user` by reference
   * (`use (&$user)`): `$user` ends as it started or as what `find` gave for
   * one of the rows.
   */
  function EachByReference(users: seq<User>, rows: seq<Binding>, user: Option<UserId>,
                           intendedGuard: bool): (r: Option<UserId>)
    ensures r == user || exists i :: 0 <= i < |rows| && r == Find(users, rows[i].userId)
    decreases |rows|
  {
    if rows == [] then user
    else
      var next := if intendedGuard then ClosureIntended(users, user, rows[0])
                  else ClosureAsWritten(users, user, rows[0]);
      var r := EachByReference(users, rows[1..], next, intendedGuard);
      assert forall i :: 0 <= i < |rows| - 1 ==> rows[1..][i] == rows[i + 1];
      r
  }

  /**
   * `getUserByUnionid($unionid)` AS WRITTEN, given the rows the binding
   * repository's `getByUnionId` returned. The closure captures `$user` BY
   * VALUE (`use ($user)`): each call assigns its own copy, which is lost when
   * it returns, so the null set before `each` is what the method returns,
   * whatever the rows are. It reads the store and never writes it.
   */
  function UserByUnionIdAsWritten(users: seq<User>, rows: seq<Binding>): (r: Option<UserId>)
    ensures r.None?
  {
    None
  }

  /**
   * The INTENDED `getUserByUnionid` (by-reference capture, guard on a linked
   * row): what `find` gives for the last linked row, or null when no row is linked.
   */
  function UserByUnionIdIntended(users: seq<User>, rows: seq<Binding>): (r: Option<UserId>)
    ensures r.Some? ==> HasUser(users, r.value) && exists i :: 0 <= i < |rows| && rows[i].userId == r
  {
    EachByReference(users, rows, None, true)
  }

  /**
   * The guard is wrong on its own: even if the closure captured `$user` by
   * reference, the as-written guard only ever looks up a null or 0 user id,
   * which finds no one, so the result would still be null.
   */
  lemma {:induction false} InvertedGuardNeverFinds(users: seq<User>, rows: seq<Binding>)
    ensures EachByReference(users, rows, None, false).None?
    decreases |rows|
  {
    if rows != [] {
      assert ClosureAsWritten(users, None, rows[0]).None?;
      InvertedGuardNeverFinds(users, rows[1..]);
    }
  }

  /** The position of the last row that is linked to a user, if any. */
  function LastLinked(rows: seq<Binding>): (r: Option<nat>)
    ensures r.Some? ==> r.value < |rows| && Linked(rows[r.value])
    ensures r.Some? ==> forall j :: r.value < j < |rows| ==> !Linked(rows[j])
    ensures r.None? <==> forall j :: 0 <= j < |rows| ==> !Linked(rows[j])
    decreases |rows|
  {
    if rows == [] then None
    else if Linked(rows[|rows| - 1]) then Some(|rows| - 1)
    else LastLinked(rows[..|rows| - 1])
  }

  /**
   * With the intended closure, `each` leaves `$user` holding whatever `find`
   * gave for the LAST linked row, and the starting value when no row is linked.
   */
  lemma {:induction false} EachIntendedIsLastLinked(users: seq<User>, rows: seq<Binding>, start: Option<UserId>)
    ensures EachByReference(users, rows, start, true) ==
      match LastLinked(rows)
      case None => start
      case Some(i) => Find(users, rows[i].userId)
    decreases |rows|
  {
    if rows != [] {
      var next := ClosureIntended(users, start, rows[0]);
      var rest := rows[1..];
      EachIntendedIsLastLinked(users, rest, next);
      assert forall j :: 0 <= j < |rest| ==> rest[j] == rows[j + 1];
      match LastLinked(rest)
      case Some(j) =>
        assert LastLinked(rows) == Some(j + 1);
      case None =>
        if Linked(rows[0]) {
          assert LastLinked(rows) == Some(0);
        } else {
          assert LastLinked(rows).None?;
        }
    }
  }

  /**
   * The intended lookup only ever answers with the user of a linked row; and
   * when every linked row points at an existing user, it answers with a user
   * exactly when some row is linked.
   */
  lemma UserByUnionIdIntendedIff(users: seq<User>, rows: seq<Binding>)
    ensures var r := UserByUnionIdIntended(users, rows);
      r.Some? ==> HasUser(users, r.value) && exists i :: 0 <= i < |rows| && Linked(rows[i]) && rows[i].userId == r
    ensures (forall i :: 0 <= i < |rows| && Linked(rows[i]) ==> HasUser(users, rows[i].userId.value)) ==>
      (UserByUnionIdIntended(users, rows).Some? <==> exists i :: 0 <= i < |rows| && Linked(rows[i]))
  {
    EachIntendedIsLastLinked(users, rows, None);
  }

  /**
   * A concrete store on which the two disagree: one user, one binding with
   * unionid "u1" linked to it. The intended lookup finds user 1; the code as
   * written answers null.
   */
  lemma UnionIdLookupMissesLinkedUser()
    ensures var users := [NewUser("13800000000")];
            var rows := [Binding("o1", "miniprogram", Some("wx1"), Some("u1"), Some(1))];
            UserByUnionIdAsWritten(users, rows).None? && UserByUnionIdIntended(users, rows) == Some(1)
  {
  }
}
