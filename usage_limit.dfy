/**
 * The daily usage quota gate.
 *
 * The `logs` table is an append-only sequence of usage events held by a
 * `UsageLog` object; the gate (`CheckUsageLimit`) is a read-only decision over
 * that sequence. Time is an integer (milliseconds since the epoch) and the
 * start of the current UTC day is an input. The store's answer to each count
 * query is an input too (`StoreReply`): it may return the count, return no
 * count, or report an error.
 */
module UsageLimit {
  import opened Wrappers

  /** The action tag of the AI chat; every other tag belongs to the general pool. */
  const AiChat := "ai-chat"
  /** The action type the gate assumes when its caller passes none. */
  const DefaultActionType := "all"
  /** Daily limits of a logged-in user. */
  const UserAiLimit := 3
  const UserGeneralLimit := 5
  /** Milliseconds in a day. */
  const DayMillis := 86_400_000

  /** One row of the `logs` table. */
  datatype UsageEvent = UsageEvent(
    userId: Option<string>,     // null for guests
    action: string,
    details: Option<string>,    // opaque payload, never read by the gate
    ipAddress: Option<string>,
    createdAt: int)             // assigned by the store when the row is inserted

  /** JavaScript truthiness of an optional string: present and non-empty. */
  predicate Truthy(s: Option<string>) {
    s.Some? && s.value != ""
  }

  /** Start of the UTC day containing `now` (the source's `setUTCHours(0, 0, 0, 0)`). */
  function StartOfDay(now: int): (start: int)
    ensures start <= now < start + DayMillis
    ensures start % DayMillis == 0
  {
    now - now % DayMillis
  }

  /** Whose events a count query selects. */
  datatype Who =
    | User(id: string)   // `.eq("user_id", id)`
    | Guest(ip: string)  // `.is("user_id", null).eq("ip_address", ip)`

  /** Which actions a count query selects. */
  datatype ActionFilter = Only(action: string) | Except(action: string) | AnyAction

  /** A count query over the `logs` table: events created at or after `since`. */
  datatype Query = Query(since: int, who: Who, actions: ActionFilter)

  predicate Matches(q: Query, e: UsageEvent) {
    && e.createdAt >= q.since
    && (match q.who
        case User(id) => e.userId == Some(id)
        case Guest(ip) => e.userId.None? && e.ipAddress == Some(ip))
    && (match q.actions
        case Only(a) => e.action == a
        case Except(a) => e.action != a
        case AnyAction => true)
  }

  /** The exact count the store returns for `q`. */
  function Count(log: seq<UsageEvent>, q: Query): (n: nat)
    ensures n <= |log|
  {
    if log == [] then 0
    else Count(log[..|log| - 1], q) + (if Matches(q, log[|log| - 1]) then 1 else 0)
  }

  /** Reference definition of the count: the set of positions of matching events. */
  ghost function MatchingPositions(log: seq<UsageEvent>, q: Query): set<nat> {
    set i: nat | i < |log| && Matches(q, log[i])
  }

  lemma {:induction false} CountIsMatchingPositions(log: seq<UsageEvent>, q: Query)
    ensures Count(log, q) == |MatchingPositions(log, q)|
  {
    if log != [] {
      var n := |log| - 1;
      var front := log[..n];
      CountIsMatchingPositions(front, q);
      var before := MatchingPositions(front, q);
      assert MatchingPositions(log, q) == before + (if Matches(q, log[n]) then {n} else {});
      assert n !in before;
    }
  }

  /** Appending an event raises a count by one exactly when the event matches. */
  lemma CountSnoc(log: seq<UsageEvent>, e: UsageEvent, q: Query)
    ensures Count(log + [e], q) == Count(log, q) + (if Matches(q, e) then 1 else 0)
  {
    assert (log + [e])[..|log|] == log;
  }

  /** Counting distributes over concatenation of logs. */
  lemma {:induction false} CountConcat(a: seq<UsageEvent>, b: seq<UsageEvent>, q: Query)
    ensures Count(a + b, q) == Count(a, q) + Count(b, q)
  {
    if b == [] {
      assert a + b == a;
    } else {
      var n := |b| - 1;
      CountConcat(a, b[..n], q);
      assert a + b == (a + b[..n]) + [b[n]];
      assert b == b[..n] + [b[n]];
      CountSnoc(a + b[..n], b[n], q);
      CountSnoc(b[..n], b[n], q);
    }
  }

  /** The events created at or after `since`, in log order. */
  function Today(log: seq<UsageEvent>, since: int): (r: seq<UsageEvent>)
    ensures |r| <= |log|
    ensures forall e :: e in r ==> e in log && e.createdAt >= since
    ensures forall e :: e in log && e.createdAt >= since ==> e in r
  {
    if log == [] then []
    else
      var n := |log| - 1;
      Today(log[..n], since) + (if log[n].createdAt >= since then [log[n]] else [])
  }

  /** Only today's events are counted: a query sees the same count in `Today(log, since)`. */
  lemma {:induction false} CountOnlyToday(log: seq<UsageEvent>, q: Query)
    ensures Count(Today(log, q.since), q) == Count(log, q)
  {
    if log != [] {
      var n := |log| - 1;
      var front := log[..n];
      CountOnlyToday(front, q);
      var kept := Today(front, q.since);
      if log[n].createdAt >= q.since {
        assert Today(log, q.since) == kept + [log[n]];
        CountSnoc(kept, log[n], q);
      } else {
        assert Today(log, q.since) == kept + [];
        assert kept + [] == kept;
        assert !Matches(q, log[n]);
      }
    }
  }

  /** What the store answers to one count query. */
  datatype StoreReply =
    | Counted     // the exact count
    | NullCount   // no error, but no count either
    | QueryError  // the query failed (its count is then null as well)

  /** The two count queries a gate call may issue. */
  datatype Replies = Replies(first: StoreReply, second: StoreReply)

  /** The count the caller sees: the exact count, or null. */
  function CountOrNull(reply: StoreReply, exact: nat): (c: Option<nat>)
    ensures c.Some? <==> reply.Counted?
    ensures c.Some? ==> c.value == exact
  {
    if reply.Counted? then Some(exact) else None
  }

  /** The gate's answer. */
  datatype Decision = Decision(allowed: bool, count: nat)

  /** The first count query: the caller's own events today, split by the AI tag. */
  function FirstQuery(userId: Option<string>, actionType: string, identifier: Option<string>, startOfDay: int): (q: Query)
    requires Truthy(userId) || Truthy(identifier)
  {
    var who := if Truthy(userId) then User(userId.value) else Guest(identifier.value);
    Query(startOfDay, who, if actionType == AiChat then Only(AiChat) else Except(AiChat))
  }

  /** The guest re-query: every guest event from `ip` today, whatever its action. */
  function GuestQuery(ip: string, startOfDay: int): (q: Query) {
    Query(startOfDay, Guest(ip), AnyAction)
  }

  /** The limit a logged-in user's count is compared with. */
  function UserLimit(actionType: string): nat {
    if actionType == AiChat then UserAiLimit else UserGeneralLimit
  }

  /**
   * `checkUsageLimit`. A logged-in user has two disjoint daily pools (the AI
   * chat, limit 3; everything else, limit 5). A guest without a user id has one
   * pool per address, shared by all actions, that allows only while it is empty;
   * with the default action type "all" the guest's limit stays 0 and every
   * answered count denies. Without any identity the gate fails closed; when the
   * first query fails it fails open.
   */
  function CheckUsageLimit(log: seq<UsageEvent>, userId: Option<string>, actionType: string,
                           identifier: Option<string>, startOfDay: int, store: Replies): (d: Decision)
    // no identity: deny without consulting the log
    ensures !Truthy(userId) && !Truthy(identifier) ==> d == Decision(false, 0)
    // first query failed: allow
    ensures (Truthy(userId) || Truthy(identifier)) && store.first.QueryError? ==> d == Decision(true, 0)
    // logged-in user, answered count: the pool chosen by the action, compared with its limit
    ensures Truthy(userId) && store.first.Counted? ==>
      && d.count == Count(log, Query(startOfDay, User(userId.value), if actionType == AiChat then Only(AiChat) else Except(AiChat)))
      && (d.allowed <==> d.count < UserLimit(actionType))
    ensures Truthy(userId) && store.first.NullCount? ==> d == Decision(true, 0)
    // guest with an explicit action type: the address-wide pool allows only while empty
    ensures !Truthy(userId) && Truthy(identifier) && actionType != DefaultActionType && !store.first.QueryError? ==>
      if store.second.Counted? then
        && d.count == Count(log, GuestQuery(identifier.value, startOfDay))
        && (d.allowed <==> d.count == 0)
      else d == Decision(true, 0)
    // guest with the default action type: any answered count denies
    ensures !Truthy(userId) && Truthy(identifier) && actionType == DefaultActionType && store.first.Counted? ==>
      !d.allowed && d.count == Count(log, Query(startOfDay, Guest(identifier.value), Except(AiChat)))
    ensures !Truthy(userId) && Truthy(identifier) && actionType == DefaultActionType && store.first.NullCount? ==>
      d == Decision(true, 0)
    // whatever happens, the count reported never exceeds the number of logged events
    ensures d.count <= |log|
  {
    if !Truthy(userId) && !Truthy(identifier) then
      Decision(false, 0)
    else
      var count := CountOrNull(store.first, Count(log, FirstQuery(userId, actionType, identifier, startOfDay)));
      if store.first.QueryError? then
        Decision(true, 0)
      else if !Truthy(userId) && actionType != DefaultActionType then
        var globalCount := CountOrNull(store.second, Count(log, GuestQuery(identifier.value, startOfDay)));
        if globalCount.Some? && globalCount.value >= 1 then Decision(false, globalCount.value)
        else Decision(true, globalCount.GetOr(0))
      else
        var limit := if !Truthy(userId) then 0 else UserLimit(actionType);
        if count.Some? && count.value >= limit then Decision(false, count.value)
        else Decision(true, count.GetOr(0))
  }

  /** Day boundary: the decision depends on today's events only, so earlier events never affect it. */
  lemma GateSeesOnlyToday(log: seq<UsageEvent>, userId: Option<string>, actionType: string,
                          identifier: Option<string>, startOfDay: int, store: Replies)
    ensures CheckUsageLimit(Today(log, startOfDay), userId, actionType, identifier, startOfDay, store)
         == CheckUsageLimit(log, userId, actionType, identifier, startOfDay, store)
  {
    if Truthy(userId) || Truthy(identifier) {
      CountOnlyToday(log, FirstQuery(userId, actionType, identifier, startOfDay));
      if !Truthy(userId) {
        CountOnlyToday(log, GuestQuery(identifier.value, startOfDay));
      }
    }
  }

  /** Pool separation: a logged-in user's AI events never move the general decision, and vice versa. */
  lemma UserPoolsAreDisjoint(log: seq<UsageEvent>, e: UsageEvent, userId: Option<string>, actionType: string,
                             identifier: Option<string>, startOfDay: int, store: Replies)
    requires Truthy(userId)
    requires (e.action == AiChat) != (actionType == AiChat)
    ensures CheckUsageLimit(log + [e], userId, actionType, identifier, startOfDay, store)
         == CheckUsageLimit(log, userId, actionType, identifier, startOfDay, store)
  {
    CountSnoc(log, e, FirstQuery(userId, actionType, identifier, startOfDay));
  }

  /** Guests share one pool: any guest event from the address today denies the next call, whatever either action is. */
  lemma GuestPoolIsShared(log: seq<UsageEvent>, e: UsageEvent, userId: Option<string>, actionType: string,
                          ip: string, startOfDay: int, store: Replies)
    requires !Truthy(userId) && ip != "" && actionType != DefaultActionType
    requires e.userId.None? && e.ipAddress == Some(ip) && e.createdAt >= startOfDay
    requires !store.first.QueryError? && store.second.Counted?
    ensures !CheckUsageLimit(log + [e], userId, actionType, Some(ip), startOfDay, store).allowed
  {
    CountSnoc(log, e, GuestQuery(ip, startOfDay));
  }

  /** Events logged under a user id never count against a guest. */
  lemma UserEventsNeverCountForGuests(log: seq<UsageEvent>, e: UsageEvent, userId: Option<string>, actionType: string,
                                      identifier: Option<string>, startOfDay: int, store: Replies)
    requires !Truthy(userId) && e.userId.Some?
    ensures CheckUsageLimit(log + [e], userId, actionType, identifier, startOfDay, store)
         == CheckUsageLimit(log, userId, actionType, identifier, startOfDay, store)
  {
    if Truthy(identifier) {
      CountSnoc(log, e, FirstQuery(userId, actionType, identifier, startOfDay));
      CountSnoc(log, e, GuestQuery(identifier.value, startOfDay));
    }
  }

  /** A denial with answered counts stays a denial however many events are appended later. */
  lemma DenialIsStable(log: seq<UsageEvent>, later: seq<UsageEvent>, userId: Option<string>, actionType: string,
                       identifier: Option<string>, startOfDay: int, store: Replies)
    requires store == Replies(Counted, Counted)
    requires !CheckUsageLimit(log, userId, actionType, identifier, startOfDay, store).allowed
    ensures !CheckUsageLimit(log + later, userId, actionType, identifier, startOfDay, store).allowed
  {
    if Truthy(userId) || Truthy(identifier) {
      CountConcat(log, later, FirstQuery(userId, actionType, identifier, startOfDay));
      if !Truthy(userId) {
        CountConcat(log, later, GuestQuery(identifier.value, startOfDay));
      }
    }
  }

  /**
   * The `logs` table. `LogUsage` is the only writer; it appends one row and
   * leaves every existing row as it was.
   */
  class UsageLog {
    var events: seq<UsageEvent>

    constructor ()
      ensures events == []
    {
      events := [];
    }

    /** `logUsage`: insert one row; the store stamps it with the current time `now`. */
    method LogUsage(userId: Option<string>, action: string, details: Option<string>, ipAddress: Option<string>, now: int)
      modifies this
      ensures events == old(events) + [UsageEvent(userId, action, details, ipAddress, now)]
    {
      events := events + [UsageEvent(userId, action, details, ipAddress, now)];
    }
  }
}
