/**
 * The appliance list endpoint: GET lists the caller's appliances, POST adds
 * one. The database is an oracle: its answers are inputs, and the queries and
 * inserts the handler issues are outputs.
 */
module AppliancesApi {
  import opened Js
  import opened Session

  /** The body fields a POST reads, as JavaScript values (absent is `Undefined`). */
  datatype ApplianceBody = ApplianceBody(
    applianceType: Value, brand: Value, model: Value,
    purchaseDate: Value, warrantyMonths: Value, storeName: Value)

  /** The `user_appliances` row a POST inserts. */
  datatype InsertRow = InsertRow(
    userId: string, applianceType: Value, brand: Value, model: Value,
    purchaseDate: Value, warrantyMonths: Value, storeName: Value)

  /** A stored appliance as the database returns it. */
  datatype ApplianceRecord = ApplianceRecord(id: string, row: InsertRow)

  const DefaultType: string := "その他"
  const DefaultWarrantyMonths: int := 12

  /**
   * The insert row: the owner is the session user; a falsy type becomes
   * "その他", a falsy brand, model or store name becomes "", a falsy purchase
   * date becomes null, and only an absent or null warranty becomes 12.
   */
  function RowFor(user: User, body: ApplianceBody): (row: InsertRow)
    ensures row.userId == user.id
    ensures Truthy(row.applianceType)
    ensures row.applianceType == (if Truthy(body.applianceType) then body.applianceType else Str(DefaultType))
    ensures row.brand == (if Truthy(body.brand) then body.brand else Str(""))
    ensures row.model == (if Truthy(body.model) then body.model else Str(""))
    ensures row.storeName == (if Truthy(body.storeName) then body.storeName else Str(""))
    ensures row.purchaseDate == (if Truthy(body.purchaseDate) then body.purchaseDate else Null)
    ensures row.warrantyMonths == (if Nullish(body.warrantyMonths) then Num(DefaultWarrantyMonths) else body.warrantyMonths)
  {
    InsertRow(
      user.id,
      Or(body.applianceType, Str(DefaultType)),
      Or(body.brand, Str("")),
      Or(body.model, Str("")),
      Or(body.purchaseDate, Null),
      Coalesce(body.warrantyMonths, Num(DefaultWarrantyMonths)),
      Or(body.storeName, Str("")))
  }

  /**
   * The `??` on the warranty matters: an explicit 0 months is stored as 0,
   * where `||` would have stored 12. An explicit empty type string, by
   * contrast, is replaced.
   */
  lemma ZeroWarrantyKept(user: User, body: ApplianceBody)
    requires body.warrantyMonths == Num(0)
    ensures RowFor(user, body).warrantyMonths == Num(0)
    ensures Or(body.warrantyMonths, Num(DefaultWarrantyMonths)) == Num(DefaultWarrantyMonths)
  {
    OrDiffersFromCoalesce(Num(0), Num(DefaultWarrantyMonths));
  }

  /** The database answer to the insert. */
  datatype InsertResult = InsertError(message: string) | Inserted(record: ApplianceRecord)

  datatype Response =
    | Unauthorized
    | Listed(appliances: seq<ApplianceRecord>)
    | InsertFailed(message: string)
    | Created(appliance: ApplianceRecord)
    | Crashed   // the body could not be read; the handler does not catch this

  function StatusCode(r: Response): int {
    match r
    case Unauthorized => 401
    case InsertFailed(_) => 500
    case Crashed => 500
    case _ => 200
  }

  /** Table accesses: the list query filtered by owner, and the insert. */
  datatype Effect = SelectByOwner(userId: string) | Insert(row: InsertRow)

  datatype Outcome = Outcome(response: Response, effects: seq<Effect>)

  /** GET: the caller's appliances (newest first, as the database orders them), or [] when unreadable. */
  function Get(auth: Auth, data: Option<seq<ApplianceRecord>>): (o: Outcome)
    ensures o.response == Unauthorized <==> !auth.SignedIn?
    ensures !auth.SignedIn? ==> o.effects == [] && StatusCode(o.response) == 401
    ensures auth.SignedIn? ==>
      && o.effects == [SelectByOwner(auth.user.id)]
      && o.response == Listed(if data.Some? then data.value else [])
  {
    match auth
    case SignedIn(user) => Outcome(Listed(data.GetOr([])), [SelectByOwner(user.id)])
    case _ => Outcome(Unauthorized, [])
  }

  /** POST. */
  function Post(auth: Auth, body: Option<ApplianceBody>, result: InsertResult): (o: Outcome)
    ensures o.response == Unauthorized <==> !auth.SignedIn?
    ensures !auth.SignedIn? ==> o.effects == [] && StatusCode(o.response) == 401
    ensures auth.SignedIn? && body.None? ==> o == Outcome(Crashed, [])
    ensures auth.SignedIn? && body.Some? ==>
      && o.effects == [Insert(RowFor(auth.user, body.value))]
      && (result.InsertError? ==> o.response == InsertFailed(result.message) && StatusCode(o.response) == 500)
      && (result.Inserted? ==> o.response == Created(result.record) && StatusCode(o.response) == 200)
  {
    match auth
    case SignedIn(user) =>
      if body.None? then Outcome(Crashed, [])
      else
        var row := RowFor(user, body.value);
        Outcome(
          match result
          case InsertError(message) => InsertFailed(message)
          case Inserted(record) => Created(record),
          [Insert(row)])
    case _ => Outcome(Unauthorized, [])
  }

  /** Every table access is scoped to the session user, whatever the body says. */
  lemma AccessScopedToSession(auth: Auth, body: Option<ApplianceBody>, result: InsertResult,
                              data: Option<seq<ApplianceRecord>>)
    ensures forall e :: e in Post(auth, body, result).effects ==> auth.SignedIn? && e.Insert? && e.row.userId == auth.user.id
    ensures forall e :: e in Get(auth, data).effects ==> auth.SignedIn? && e == SelectByOwner(auth.user.id)
  {
  }
}
