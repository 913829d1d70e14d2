/**
 * The Paddle webhook of server/src/controllers/paddle.controller.ts over the user table. A field
 * the event does not carry is `None`; Prisma drops an `undefined` filter or update value, so a
 * missing customer id matches every user (the first is taken) and a missing subscription id
 * leaves the stored one in place. Signature verification is not performed by the source.
 */
module PaddleWebhook {
  import opened Wrappers
  import AuthGates
  import SubscriptionGates

  /** `SUPPORTED_EVENTS`. */
  const SUPPORTED_EVENTS: seq<string> := [
    "subscription.created", "subscription.updated", "subscription.cancelled",
    "subscription.paused", "subscription.resumed", "payment_succeeded", "payment_failed"
  ]

  /** The user columns the webhook reads and writes. */
  datatype User = User(id: string, email: string, paddleUserId: Option<string>,
                       subscriptionStatus: string, paddleSubscriptionId: Option<string>, subscription: string)

  /** `event.data`: `customer_id`, `subscription_id`, `status` and `customer?.email`. */
  datatype EventData = EventData(customerId: Option<string>, subscriptionId: Option<string>,
                                 status: Option<string>, customerEmail: Option<string>)

  /** `findFirst({ where: { paddleUserId } })` from position `i` on. */
  function FirstByPaddleFrom(users: seq<User>, customerId: Option<string>, i: nat): (r: Option<nat>)
    requires i <= |users|
    ensures r.Some? ==> i <= r.value < |users|
    ensures r.Some? ==> customerId.None? || users[r.value].paddleUserId == customerId
    ensures r.Some? ==> forall j :: i <= j < r.value ==> customerId.Some? && users[j].paddleUserId != customerId
    ensures r.None? ==> forall j :: i <= j < |users| ==> customerId.Some? && users[j].paddleUserId != customerId
    decreases |users| - i
  {
    if i == |users| then None
    else if customerId.None? || users[i].paddleUserId == customerId then Some(i)
    else FirstByPaddleFrom(users, customerId, i + 1)
  }

  function FirstByPaddle(users: seq<User>, customerId: Option<string>): Option<nat> {
    FirstByPaddleFrom(users, customerId, 0)
  }

  /** The first match is determined by the rows up to it. */
  lemma {:induction false} FirstByPaddleIs(users: seq<User>, customerId: Option<string>, k: nat, i: nat)
    requires k <= i < |users|
    requires customerId.None? || users[i].paddleUserId == customerId
    requires k < i ==> customerId.Some?
    requires forall j :: k <= j < i ==> users[j].paddleUserId != customerId
    ensures FirstByPaddleFrom(users, customerId, k) == Some(i)
    decreases i - k
  {
    if k < i {
      assert users[k].paddleUserId != customerId;
      FirstByPaddleIs(users, customerId, k + 1, i);
    }
  }

  /** `findUnique({ where: { email } })`. */
  function ByEmailFrom(users: seq<User>, email: string, i: nat): (r: Option<nat>)
    requires i <= |users|
    ensures r.Some? ==> i <= r.value < |users| && users[r.value].email == email
    ensures r.None? <==> forall j :: i <= j < |users| ==> users[j].email != email
    decreases |users| - i
  {
    if i == |users| then None
    else if users[i].email == email then Some(i)
    else ByEmailFrom(users, email, i + 1)
  }

  /** The email column is unique, as the schema declares it. */
  predicate EmailsUnique(users: seq<User>) {
    forall i, j :: 0 <= i < j < |users| ==> users[i].email != users[j].email
  }

  /** The update `{ paddleUserId: customer_id }`. */
  function Linked(u: User, customerId: Option<string>): User {
    if customerId.Some? then u.(paddleUserId := customerId) else u
  }

  /** The update `{ subscriptionStatus: 'premium', paddleSubscriptionId, subscription: 'PREMIUM' }`. */
  function Upgraded(u: User, subscriptionId: Option<string>): User {
    u.(subscriptionStatus := "premium", subscription := "PREMIUM",
       paddleSubscriptionId := if subscriptionId.Some? then subscriptionId else u.paddleSubscriptionId)
  }

  /** The update `{ subscriptionStatus: 'free', paddleSubscriptionId: null, subscription: 'FREE' }`. */
  function Downgraded(u: User): User {
    u.(subscriptionStatus := "free", paddleSubscriptionId := None, subscription := "FREE")
  }

  /** A status that grants premium on `subscription.created` and `subscription.updated`. */
  predicate Granting(status: Option<string>) {
    status == Some("active") || status == Some("trialing")
  }

  /** The user `handleSubscriptionCreated` acts on: by Paddle customer id, else by a truthy customer email. */
  function CreatedTarget(users: seq<User>, data: EventData): Option<nat> {
    var byPaddle := FirstByPaddle(users, data.customerId);
    if byPaddle.Some? then byPaddle
    else if Truthy(data.customerEmail) then ByEmailFrom(users, data.customerEmail.value, 0)
    else None
  }

  /** The table after `handleSubscriptionCreated`. */
  function AfterCreated(users: seq<User>, data: EventData): seq<User> {
    var target := CreatedTarget(users, data);
    if target.None? then users
    else
      var i := target.value;
      var linked := if FirstByPaddle(users, data.customerId).Some? then users
                    else users[i := Linked(users[i], data.customerId)];
      if Granting(data.status) then linked[i := Upgraded(linked[i], data.subscriptionId)] else linked
  }

  /** The table after `handleSubscriptionCancelled`. */
  function AfterCancelled(users: seq<User>, data: EventData): seq<User> {
    var target := FirstByPaddle(users, data.customerId);
    if target.Some? then users[target.value := Downgraded(users[target.value])] else users
  }

  /** The table after `handlePaymentSucceeded`. */
  function AfterPaymentSucceeded(users: seq<User>, data: EventData): seq<User> {
    var target := FirstByPaddle(users, data.customerId);
    if target.Some? then users[target.value := Upgraded(users[target.value], data.subscriptionId)] else users
  }

  /** The `switch` over the event type; the paused, resumed and payment-failed events change nothing. */
  function Dispatch(users: seq<User>, eventType: string, data: EventData): seq<User> {
    if eventType == "subscription.created" || eventType == "subscription.updated" then AfterCreated(users, data)
    else if eventType == "subscription.cancelled" then AfterCancelled(users, data)
    else if eventType == "payment_succeeded" then AfterPaymentSucceeded(users, data)
    else users
  }

  /** Every handler touches at most one row and never a user's id or email. */
  predicate ChangesAtMostOne(before: seq<User>, after: seq<User>) {
    |after| == |before|
    && (forall i :: 0 <= i < |after| ==> after[i].id == before[i].id && after[i].email == before[i].email)
    && (forall i, j :: 0 <= i < j < |after| ==> after[i] == before[i] || after[j] == before[j])
  }

  lemma DispatchChangesAtMostOne(users: seq<User>, eventType: string, data: EventData)
    ensures ChangesAtMostOne(users, Dispatch(users, eventType, data))
    ensures EmailsUnique(users) ==> EmailsUnique(Dispatch(users, eventType, data))
  {
    var after := Dispatch(users, eventType, data);
    assert forall i :: 0 <= i < |after| ==> after[i].email == users[i].email;
  }

  /**
   * A granting `subscription.created` for a known customer, or a `payment_succeeded`, leaves that
   * user with status `premium` and tier `PREMIUM`; a later `subscription.cancelled` for the same
   * customer puts both back to free and clears the subscription id.
   */
  lemma UpgradeThenCancel(users: seq<User>, data: EventData, i: nat)
    requires i < |users| && data.customerId.Some? && users[i].paddleUserId == data.customerId
    requires forall j :: 0 <= j < i ==> users[j].paddleUserId != data.customerId
    ensures var up := AfterPaymentSucceeded(users, data);
            up[i].subscriptionStatus == "premium" && up[i].subscription == "PREMIUM"
            && (data.subscriptionId.Some? ==> up[i].paddleSubscriptionId == data.subscriptionId)
    ensures var down := AfterCancelled(AfterPaymentSucceeded(users, data), data);
            down[i].subscriptionStatus == "free" && down[i].subscription == "FREE" && down[i].paddleSubscriptionId == None
            && down[i].id == users[i].id
  {
    FirstByPaddleIs(users, data.customerId, 0, i);
    var up := AfterPaymentSucceeded(users, data);
    assert forall j :: 0 <= j < i ==> up[j] == users[j];
    FirstByPaddleIs(up, data.customerId, 0, i);
  }

  /** `subscription.created` with a granting status is the same as linking then `payment_succeeded`. */
  lemma CreatedGrantsPremium(users: seq<User>, data: EventData)
    requires CreatedTarget(users, data).Some?
    ensures var i := CreatedTarget(users, data).value;
            var after := AfterCreated(users, data);
            i < |after|
            && (after[i].subscriptionStatus == "premium" <==> Granting(data.status) || users[i].subscriptionStatus == "premium")
            && (after[i].paddleUserId == if data.customerId.Some? then data.customerId else users[i].paddleUserId)
  {
  }

  /** Replaying a payment or a cancellation changes nothing more. */
  lemma RepeatedEventsIdempotent(users: seq<User>, data: EventData)
    ensures AfterPaymentSucceeded(AfterPaymentSucceeded(users, data), data) == AfterPaymentSucceeded(users, data)
    ensures AfterCancelled(AfterCancelled(users, data), data) == AfterCancelled(users, data)
  {
    var t := FirstByPaddle(users, data.customerId);
    if t.Some? {
      var i := t.value;
      var up := AfterPaymentSucceeded(users, data);
      assert forall j :: 0 <= j < i ==> up[j] == users[j];
      FirstByPaddleIs(up, data.customerId, 0, i);
      var down := AfterCancelled(users, data);
      assert forall j :: 0 <= j < i ==> down[j] == users[j];
      FirstByPaddleIs(down, data.customerId, 0, i);
    }
  }

  /**
   * The paused, resumed and payment-failed events are acknowledged without touching any user,
   * and a cancellation or payment for a customer id no user carries changes nothing.
   */
  lemma AcknowledgedEventsChangeNothing(users: seq<User>, eventType: string, data: EventData)
    requires eventType in {"subscription.paused", "subscription.resumed", "payment_failed"}
    ensures Dispatch(users, eventType, data) == users
    ensures data.customerId.Some? && (forall j :: 0 <= j < |users| ==> users[j].paddleUserId != data.customerId) ==>
              AfterCancelled(users, data) == users && AfterPaymentSucceeded(users, data) == users
  {
  }

  /** An event without `customer_id` matches every user, so a payment upgrades the first user in the table. */
  lemma MissingCustomerUpgradesFirstUser(users: seq<User>, subscriptionId: Option<string>)
    requires |users| > 0
    ensures AfterPaymentSucceeded(users, EventData(None, subscriptionId, None, None))[0]
            == Upgraded(users[0], subscriptionId)
  {
  }

  /**
   * The webhook stores tier `PREMIUM` while `checkSubscription` ranks only lower-case tiers, and
   * sets status `premium`, which `requirePremium` accepts: an upgraded user passes
   * `requirePremium` but is refused `checkSubscription('premium')`.
   */
  lemma PremiumGatesDisagree(u: User, subscriptionId: Option<string>, isGuest: bool)
    requires u.id != ""
    ensures var up := Upgraded(u, subscriptionId);
            SubscriptionGates.RequirePremium(Some(up.id), SubscriptionGates.Found(up.subscriptionStatus)) == SubscriptionGates.Next
            && AuthGates.CheckSubscription(Some(AuthGates.AuthUser(up.id, up.email, isGuest, up.subscription)), "premium").Some?
  {
  }

  /** What the webhook answers with. */
  datatype WebhookReply = Received | Refused(status: int, error: string)

  /** The gates in front of the switch: a signature header and a configured secret. */
  function WebhookGate(signature: Option<string>, secret: Option<string>): (r: Option<WebhookReply>)
    ensures r.None? <==> Truthy(signature) && Truthy(secret)
    ensures !Truthy(signature) ==> r == Some(Refused(401, "Missing signature"))
    ensures Truthy(signature) && !Truthy(secret) ==> r == Some(Refused(500, "Server configuration error"))
  {
    if !Truthy(signature) then Some(Refused(401, "Missing signature"))
    else if !Truthy(secret) then Some(Refused(500, "Server configuration error"))
    else None
  }

  /** The user table the handlers update. */
  class UserTable {
    var users: seq<User>

    ghost predicate Valid()
      reads this
    {
      EmailsUnique(users)
    }

    constructor(users: seq<User>)
      requires EmailsUnique(users)
      ensures Valid() && this.users == users
    {
      this.users := users;
    }

    /** `handleSubscriptionCreated`: find by customer id, else by email and link, then grant premium. */
    method SubscriptionCreated(data: EventData)
      requires Valid()
      modifies this
      ensures Valid()
      ensures users == AfterCreated(old(users), data)
    {
      DispatchChangesAtMostOne(users, "subscription.created", data);
      var user := FirstByPaddle(users, data.customerId);
      if user.None? && Truthy(data.customerEmail) {
        user := ByEmailFrom(users, data.customerEmail.value, 0);
        if user.Some? {
          users := users[user.value := Linked(users[user.value], data.customerId)];
        }
      }
      if user.Some? && Granting(data.status) {
        users := users[user.value := Upgraded(users[user.value], data.subscriptionId)];
      }
    }

    /** `handleSubscriptionCancelled`. */
    method SubscriptionCancelled(data: EventData)
      requires Valid()
      modifies this
      ensures Valid()
      ensures users == AfterCancelled(old(users), data)
    {
      DispatchChangesAtMostOne(users, "subscription.cancelled", data);
      var user := FirstByPaddle(users, data.customerId);
      if user.Some? {
        users := users[user.value := Downgraded(users[user.value])];
      }
    }

    /** `handlePaymentSucceeded`. */
    method PaymentSucceeded(data: EventData)
      requires Valid()
      modifies this
      ensures Valid()
      ensures users == AfterPaymentSucceeded(old(users), data)
    {
      DispatchChangesAtMostOne(users, "payment_succeeded", data);
      var user := FirstByPaddle(users, data.customerId);
      if user.Some? {
        users := users[user.value := Upgraded(users[user.value], data.subscriptionId)];
      }
    }

    /**
     * `paddleWebhookHandler`: the gates, then unsupported events are acknowledged untouched, and
     * supported ones go through the switch before `{ received: true }`.
     */
    method Handle(signature: Option<string>, secret: Option<string>, eventType: string, data: EventData)
      returns (reply: WebhookReply)
      requires Valid()
      modifies this
      ensures Valid()
      ensures WebhookGate(signature, secret).Some? ==> reply == WebhookGate(signature, secret).value && users == old(users)
      ensures WebhookGate(signature, secret).None? ==> reply == Received
      ensures WebhookGate(signature, secret).None? && eventType in SUPPORTED_EVENTS ==> users == Dispatch(old(users), eventType, data)
      ensures eventType !in SUPPORTED_EVENTS ==> users == old(users)
    {
      var gate := WebhookGate(signature, secret);
      if gate.Some? {
        return gate.value;
      }
      if eventType !in SUPPORTED_EVENTS {
        return Received;
      }
      if eventType == "subscription.created" || eventType == "subscription.updated" {
        SubscriptionCreated(data);
      } else if eventType == "subscription.cancelled" {
        SubscriptionCancelled(data);
      } else if eventType == "payment_succeeded" {
        PaymentSucceeded(data);
      }
      reply := Received;
    }
  }
}
