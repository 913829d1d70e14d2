/**
 * The two gates of server/src/middleware/subscription.middleware.ts. Both answer with their own
 * JSON bodies rather than through the error handler. The user lookup and the count of today's
 * messages are database reads: each is passed in, with a case for a read that throws.
 */
module SubscriptionGates {
  import opened Wrappers
  import ChatRelay

  /** The free plan's daily allowance of user messages. */
  const DAILY_LIMIT: nat := 50

  /** The JSON bodies these gates send. */
  datatype GateBody =
    | ErrorOnly(error: string)
    | Explained(error: string, message: string)
    | LimitBody(error: string, message: string, limit: nat, current: nat)

  /** `next()`, or `res.status(status).json(body)`. */
  datatype GateReply = Next | Json(status: int, body: GateBody)

  /** `prisma.user.findUnique(... select subscriptionStatus)`: it throws, finds no user, or finds the user's status. */
  datatype Lookup = LookupFailed | NoUser | Found(status: string)

  /** `requirePremium`: only a stored user whose `subscriptionStatus` is exactly `premium` passes. */
  function RequirePremium(userId: Option<string>, lookup: Lookup): (r: GateReply)
    ensures r == Next <==> Truthy(userId) && lookup == Found("premium")
    ensures !Truthy(userId) ==> r == Json(401, ErrorOnly("Authentication required"))
    ensures Truthy(userId) && lookup.LookupFailed? ==> r == Json(500, ErrorOnly("Failed to verify subscription status"))
    ensures Truthy(userId) && (lookup.NoUser? || (lookup.Found? && lookup.status != "premium")) ==>
              r == Json(403, Explained("Premium subscription required", "This feature is only available for premium users"))
  {
    if !Truthy(userId) then Json(401, ErrorOnly("Authentication required"))
    else match lookup
      case LookupFailed => Json(500, ErrorOnly("Failed to verify subscription status"))
      case NoUser => Json(403, Explained("Premium subscription required", "This feature is only available for premium users"))
      case Found(status) =>
        if status != "premium" then
          Json(403, Explained("Premium subscription required", "This feature is only available for premium users"))
        else Next
  }

  /** `prisma.message.count`: the user's own messages created at or after `since`. */
  function DailyCount(rows: seq<ChatRelay.MessageRow>, userId: string, since: nat): (n: nat)
    ensures n <= |rows|
  {
    if rows == [] then 0
    else
      var last := rows[|rows| - 1];
      DailyCount(rows[..|rows| - 1], userId, since)
      + (if last.userId == userId && last.isFromUser && last.createdAt >= since then 1 else 0)
  }

  /**
   * Storing one more user message counts exactly when it is the same user's and from today;
   * assistant replies and other users' messages never count.
   */
  lemma DailyCountAppend(rows: seq<ChatRelay.MessageRow>, row: ChatRelay.MessageRow, userId: string, since: nat)
    ensures DailyCount(rows + [row], userId, since)
            == DailyCount(rows, userId, since) + (if row.userId == userId && row.isFromUser && row.createdAt >= since then 1 else 0)
  {
    assert (rows + [row])[..|rows|] == rows;
  }

  /** The count of a user's messages created today, as if every row were one of them. */
  lemma {:induction false} DailyCountAllMatch(rows: seq<ChatRelay.MessageRow>, userId: string, since: nat)
    requires forall i :: 0 <= i < |rows| ==> rows[i].userId == userId && rows[i].isFromUser && rows[i].createdAt >= since
    ensures DailyCount(rows, userId, since) == |rows|
  {
    if rows != [] {
      DailyCountAllMatch(rows[..|rows| - 1], userId, since);
    }
  }

  /** The refusal body once the allowance is used up. */
  function LimitExceeded(count: nat): GateBody {
    LimitBody("Daily message limit exceeded",
              "Free users can send 50 messages per day. Upgrade to Premium for unlimited messages.",
              DAILY_LIMIT, count)
  }

  /**
   * `checkMessageLimit`: premium users always pass; any other stored user passes while fewer
   * than 50 of their messages were created since `today` (local midnight), and is refused with
   * 429 and the current count otherwise. `rows` is `None` when the count query throws.
   */
  function CheckMessageLimit(userId: Option<string>, lookup: Lookup, rows: Option<seq<ChatRelay.MessageRow>>, today: nat)
    : (r: GateReply)
    ensures !Truthy(userId) ==> r == Json(401, ErrorOnly("Authentication required"))
    ensures Truthy(userId) && lookup == NoUser ==> r == Json(404, ErrorOnly("User not found"))
    ensures Truthy(userId) && lookup == Found("premium") ==> r == Next
    ensures r.Json? && r.status == 500 <==>
              Truthy(userId) && (lookup.LookupFailed? || (lookup.Found? && lookup.status != "premium" && rows.None?))
    ensures r.Json? && r.status == 500 ==> r.body == ErrorOnly("Failed to check message limit")
    ensures Truthy(userId) && lookup.Found? && lookup.status != "premium" && rows.Some? ==>
              var n := DailyCount(rows.value, userId.value, today);
              r == (if n >= DAILY_LIMIT then Json(429, LimitExceeded(n)) else Next)
  {
    if !Truthy(userId) then Json(401, ErrorOnly("Authentication required"))
    else match lookup
      case LookupFailed => Json(500, ErrorOnly("Failed to check message limit"))
      case NoUser => Json(404, ErrorOnly("User not found"))
      case Found(status) =>
        if status == "premium" then Next
        else match rows
          case None => Json(500, ErrorOnly("Failed to check message limit"))
          case Some(rs) =>
            var n := DailyCount(rs, userId.value, today);
            if n >= DAILY_LIMIT then Json(429, LimitExceeded(n)) else Next
  }

  /**
   * Fifty user messages stored today use up a free user's allowance: the next message is refused,
   * while a premium user with the same history passes.
   */
  lemma FiftyMessagesExhaustAllowance(rows: seq<ChatRelay.MessageRow>, userId: string, today: nat, status: string)
    requires userId != "" && status != "premium" && |rows| == 50
    requires forall i :: 0 <= i < |rows| ==> rows[i].userId == userId && rows[i].isFromUser && rows[i].createdAt >= today
    ensures CheckMessageLimit(Some(userId), Found(status), Some(rows), today) == Json(429, LimitExceeded(50))
    ensures CheckMessageLimit(Some(userId), Found("premium"), Some(rows), today) == Next
  {
    DailyCountAllMatch(rows, userId, today);
  }

  /** Replies from the assistant are stored with the user's id but never count against the allowance. */
  lemma RepliesAreFree(rows: seq<ChatRelay.MessageRow>, reply: ChatRelay.MessageRow, userId: string, today: nat)
    requires !reply.isFromUser
    ensures DailyCount(rows + [reply], userId, today) == DailyCount(rows, userId, today)
  {
    DailyCountAppend(rows, reply, userId, today);
  }
}
