/**
 * The escalation endpoint: a conversation the assistant could not resolve
 * becomes a repair ticket, the conversation is marked escalated, and an
 * outside workflow is notified. Database answers and the notification's
 * outcome are inputs; the writes and the notification are outputs.
 */
module EscalationApi {
  import opened Js
  import opened Session

  /** The body fields, as JavaScript values (absent is `Undefined`). */
  datatype EscalationBody = EscalationBody(
    conversationId: Value, userProductId: Value, symptom: Value, triedSolutions: Value,
    warrantyStatus: Value, photoUrl: Value, aiSummary: Value)

  /** The `tickets` row inserted. */
  datatype TicketRow = TicketRow(
    conversationId: Value, userProductId: Value, status: string, symptom: Value,
    triedSolutions: Value, warrantyStatus: Value, photoUrl: Value)

  /** The ticket as the database returns it. */
  datatype Ticket = Ticket(id: string, status: string)

  /** A `user_products` row with its product's name and model number (`Undefined` when it has no product). */
  datatype UserProduct = UserProduct(
    id: string, purchaseDate: Value, warrantyEnd: Value, productName: Value, modelNumber: Value)

  /** The product details sent with the notification. */
  datatype UserProductInfo =
    | Fallback(userProductId: Value)
    | Found(id: string, productName: Value, modelNumber: Value, purchaseDate: Value, warrantyEnd: Value)

  /** The answers of the database and of the notification endpoint. */
  datatype Backend = Backend(
    ticket: Option<Ticket>,            // none when the insert reports an error or returns no row
    userProduct: Option<UserProduct>,  // the product lookup's row, if any
    webhookFails: bool)                // the notification throws

  datatype Effect =
    | InsertTicket(row: TicketRow)
    | UpdateConversation(conversationId: Value, isEscalated: bool, aiSummary: Value)
    | Notify(ticketId: string, symptom: Value, aiSummary: Value, info: UserProductInfo)
    | LogError(context: string)

  const SuccessMessage: string := "エスカレーションチケットを作成しました"

  datatype Response =
    | Unauthorized
    | MissingFields
    | TicketFailed
    | InternalError   // the body could not be read
    | Escalated(ticketId: string, status: string, message: string)

  function StatusCode(r: Response): int {
    match r
    case Unauthorized => 401
    case MissingFields => 400
    case TicketFailed => 500
    case InternalError => 500
    case Escalated(_, _, _) => 200
  }

  datatype Outcome = Outcome(response: Response, effects: seq<Effect>)

  /** The ticket row: status "new", and every absent optional field stored as null. */
  function TicketFor(body: EscalationBody): (row: TicketRow)
    ensures row.status == "new"
    ensures row.conversationId == body.conversationId && row.symptom == body.symptom
    ensures row.userProductId == (if Nullish(body.userProductId) then Null else body.userProductId)
    ensures row.triedSolutions == (if Nullish(body.triedSolutions) then Null else body.triedSolutions)
    ensures row.warrantyStatus == (if Nullish(body.warrantyStatus) then Null else body.warrantyStatus)
    ensures row.photoUrl == (if Nullish(body.photoUrl) then Null else body.photoUrl)
  {
    TicketRow(
      body.conversationId,
      Coalesce(body.userProductId, Null),
      "new",
      body.symptom,
      Coalesce(body.triedSolutions, Null),
      Coalesce(body.warrantyStatus, Null),
      Coalesce(body.photoUrl, Null))
  }

  /**
   * `userProductInfo`: the id alone (or "" when absent) unless a product id
   * was given and its lookup found a row, in which case the row's details.
   */
  function ProductInfoFor(userProductId: Value, lookup: Option<UserProduct>): (info: UserProductInfo)
    ensures info.Found? <==> Truthy(userProductId) && lookup.Some?
    ensures info.Fallback? ==> info.userProductId == (if Nullish(userProductId) then Str("") else userProductId)
    ensures info.Found? ==> info == Found(lookup.value.id, lookup.value.productName, lookup.value.modelNumber,
                                          lookup.value.purchaseDate, lookup.value.warrantyEnd)
  {
    var fallback := Fallback(Coalesce(userProductId, Str("")));
    if Truthy(userProductId) then
      match lookup
      case Some(up) => Found(up.id, up.productName, up.modelNumber, up.purchaseDate, up.warrantyEnd)
      case None => fallback
    else fallback
  }

  /** POST /api/escalation. */
  function Post(auth: Auth, body: Option<EscalationBody>, db: Backend): Outcome {
    if !auth.SignedIn? then Outcome(Unauthorized, [])
    else if body.None? then Outcome(InternalError, [LogError("Escalation API error")])
    else
      var b := body.value;
      if !Truthy(b.conversationId) || !Truthy(b.symptom) then Outcome(MissingFields, [])
      else
        var insert := InsertTicket(TicketFor(b));
        match db.ticket
        case None => Outcome(TicketFailed, [insert, LogError("Failed to create ticket")])
        case Some(ticket) =>
          var update := UpdateConversation(b.conversationId, true, Coalesce(b.aiSummary, Null));
          var notify := Notify(ticket.id, b.symptom, Coalesce(b.aiSummary, Null), ProductInfoFor(b.userProductId, db.userProduct));
          var log := if db.webhookFails then [LogError("n8n escalation webhook error")] else [];
          Outcome(Escalated(ticket.id, ticket.status, SuccessMessage), [insert, update, notify] + log)
  }

  /** A caller without a session gets 401 and nothing is written. */
  lemma UnauthenticatedRefused(auth: Auth, body: Option<EscalationBody>, db: Backend)
    requires !auth.SignedIn?
    ensures Post(auth, body, db) == Outcome(Unauthorized, [])
    ensures StatusCode(Post(auth, body, db).response) == 401
  {
  }

  /** A missing (falsy) conversation id or symptom is a 400 and no ticket is created. */
  lemma MissingFieldsRefused(user: User, b: EscalationBody, db: Backend)
    requires !Truthy(b.conversationId) || !Truthy(b.symptom)
    ensures Post(SignedIn(user), Some(b), db) == Outcome(MissingFields, [])
    ensures StatusCode(Post(SignedIn(user), Some(b), db).response) == 400
  {
  }

  /** A failed ticket insert is a 500 with no conversation update and no notification. */
  lemma TicketFailureStops(user: User, b: EscalationBody, db: Backend)
    requires Truthy(b.conversationId) && Truthy(b.symptom) && db.ticket.None?
    ensures var o := Post(SignedIn(user), Some(b), db);
      && StatusCode(o.response) == 500
      && (forall e :: e in o.effects ==> !e.UpdateConversation? && !e.Notify?)
  {
  }

  /**
   * A created ticket: the row has status "new", the conversation is marked
   * escalated with the summary or null, the notification carries the ticket
   * id, and the reply carries the ticket's id and status.
   */
  lemma TicketCreated(user: User, b: EscalationBody, db: Backend)
    requires Truthy(b.conversationId) && Truthy(b.symptom) && db.ticket.Some?
    ensures var o := Post(SignedIn(user), Some(b), db);
      && o.response == Escalated(db.ticket.value.id, db.ticket.value.status, SuccessMessage)
      && |o.effects| >= 3
      && o.effects[0].InsertTicket? && o.effects[0].row.status == "new"
      && o.effects[1] == UpdateConversation(b.conversationId, true, if Nullish(b.aiSummary) then Null else b.aiSummary)
      && o.effects[2].Notify? && o.effects[2].ticketId == db.ticket.value.id
  {
  }

  /**
   * A failing notification changes nothing but the error log: the response
   * and every write are those of a delivered notification.
   */
  lemma WebhookFailureIsolated(user: User, b: EscalationBody, db: Backend)
    ensures var failed := Post(SignedIn(user), Some(b), db.(webhookFails := true));
      var delivered := Post(SignedIn(user), Some(b), db.(webhookFails := false));
      && failed.response == delivered.response
      && (forall e :: e in failed.effects && !e.LogError? ==> e in delivered.effects)
      && (forall e :: e in delivered.effects ==> e in failed.effects)
  {
  }
}
