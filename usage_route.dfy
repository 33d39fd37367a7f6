/**
 * `GET /api/user/usage`: a read-only snapshot of the caller's quota. It asks
 * the gate for the general count (action type "general") and for the AI count
 * (action type "ai-chat") and reports them with the limits that apply to the
 * caller. The log is taken as a value, so the snapshot cannot change it.
 */
module UsageRoute {
  import opened Wrappers
  import opened UsageLimit
  import opened Headers

  /** The action type the snapshot uses for the general (non-AI) pool. */
  const GeneralActionType := "general"
  const FetchFailedMessage := "Failed to fetch usage stats"
  const GuestGeneralLimit := 1
  const GuestAiLimit := 1

  /** The JSON body of a successful reply. */
  datatype UsageStats = UsageStats(
    usage: nat, limit: nat, aiUsage: nat, aiLimit: nat, remaining: nat, isGuest: bool)

  datatype UsageResponse =
    | Stats(stats: UsageStats)                 // status 200
    | ServerError(status: nat, error: string)

  /** `Math.max(0, limit - usage)`. */
  function Remaining(limit: nat, usage: nat): (r: nat)
    ensures r <= limit
    ensures usage <= limit ==> r + usage == limit
    ensures usage >= limit ==> r == 0
  {
    if usage <= limit then limit - usage else 0
  }

  /**
   * `GET`. `user` is the authenticated user's id, if any; `general` and `ai` are
   * the store's replies to the two gate calls; `failed` stands for an exception
   * raised while reaching the store or the session, which the handler turns
   * into a 500 reply.
   */
  function Get(log: seq<UsageEvent>, user: Option<string>, forwardedFor: Option<string>, startOfDay: int,
               general: Replies, ai: Replies, failed: bool): (r: UsageResponse)
    ensures failed ==> r == ServerError(500, FetchFailedMessage)
    ensures !failed ==> r.Stats?
    ensures r.Stats? ==>
      var s := r.stats;
      && (s.isGuest <==> !Truthy(user))
      && (s.isGuest ==> s.limit == GuestGeneralLimit && s.aiLimit == GuestAiLimit)
      && (!s.isGuest ==> s.limit == UserGeneralLimit && s.aiLimit == UserAiLimit)
      && s.remaining == Remaining(s.limit, s.usage)
      && s.remaining <= s.limit
      && (s.remaining == 0 <==> s.usage >= s.limit)
      && s.usage == CheckUsageLimit(log, user, GeneralActionType, Some(ClientIp(forwardedFor)), startOfDay, general).count
      && s.aiUsage == CheckUsageLimit(log, user, AiChat, Some(ClientIp(forwardedFor)), startOfDay, ai).count
  {
    if failed then ServerError(500, FetchFailedMessage)
    else
      var ip := ClientIp(forwardedFor);
      var generalUsage := CheckUsageLimit(log, user, GeneralActionType, Some(ip), startOfDay, general).count;
      var aiUsage := CheckUsageLimit(log, user, AiChat, Some(ip), startOfDay, ai).count;
      var isGuest := !Truthy(user);
      var generalLimit := if isGuest then GuestGeneralLimit else UserGeneralLimit;
      var aiLimit := if isGuest then GuestAiLimit else UserAiLimit;
      Stats(UsageStats(generalUsage, generalLimit, aiUsage, aiLimit, Remaining(generalLimit, generalUsage), isGuest))
  }

  /** For a guest both figures come from the same address-wide count, so they agree. */
  lemma GuestUsageIsShared(log: seq<UsageEvent>, forwardedFor: Option<string>, startOfDay: int,
                           general: Replies, ai: Replies)
    requires !general.first.QueryError? && !ai.first.QueryError?
    requires general.second == ai.second
    ensures var r := Get(log, None, forwardedFor, startOfDay, general, ai, false);
      && r.stats.usage == r.stats.aiUsage
      && (general.second.Counted? ==> r.stats.usage == Count(log, GuestQuery(ClientIp(forwardedFor), startOfDay)))
  {
  }

  /**
   * The snapshot agrees with the gate: with answered counts, `remaining` is 0
   * exactly when the gate would deny the caller a general action.
   */
  lemma RemainingZeroIffGateDenies(log: seq<UsageEvent>, user: Option<string>, forwardedFor: Option<string>,
                                   startOfDay: int, ai: Replies, actionType: string)
    requires actionType != AiChat && actionType != DefaultActionType
    ensures var ip := ClientIp(forwardedFor);
      var store := Replies(Counted, Counted);
      var snapshot := Get(log, user, forwardedFor, startOfDay, store, ai, false);
      var decision := CheckUsageLimit(log, user, actionType, Some(ip), startOfDay, store);
      snapshot.stats.remaining == 0 <==> !decision.allowed
  {
  }
}
