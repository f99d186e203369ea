/**
 * The provider-independent bookkeeping of `LLMService`: conversations and
 * their messages, usage logging and usage statistics, and the list of
 * messages `chat` hands to the provider.
 */
module LlmService {
  import opened Common
  import opened LlmModels

  const CONVERSATION_NOT_FOUND := "Conversation not found"
  const CONVERSATION_DELETED := "Conversation deleted successfully"

  // ------------------------------------------------------ usage buckets

  /** One entry of `usage_by_model` or `usage_by_operation`, without its floating-point `cost`. */
  datatype Bucket = Bucket(key: string, requests: nat, tokens: int)

  /** One iteration of a bucket loop: create the key's bucket on first sight, then count the log in it. */
  function Bump(buckets: seq<Bucket>, key: string, tokens: int): (r: seq<Bucket>)
    ensures |r| == |buckets| || |r| == |buckets| + 1
    decreases |buckets|
  {
    if |buckets| == 0 then [Bucket(key, 1, tokens)]
    else if buckets[0].key == key then [buckets[0].(requests := buckets[0].requests + 1, tokens := buckets[0].tokens + tokens)] + buckets[1..]
    else [buckets[0]] + Bump(buckets[1..], key, tokens)
  }

  function ModelOf(l: UsageLog): string { l.modelName }

  function OperationOf(l: UsageLog): string { l.operationType }

  /** The buckets a loop over `logs` builds, keyed by `keyOf`, in first-appearance order. */
  function Aggregate(logs: seq<UsageLog>, keyOf: UsageLog -> string): seq<Bucket>
    decreases |logs|
  {
    if |logs| == 0 then []
    else
      var last := logs[|logs| - 1];
      Bump(Aggregate(logs[..|logs| - 1], keyOf), keyOf(last), last.totalTokens)
  }

  function SumRequests(buckets: seq<Bucket>): int
  {
    if |buckets| == 0 then 0 else buckets[0].requests + SumRequests(buckets[1..])
  }

  function SumTokens(buckets: seq<Bucket>): int
  {
    if |buckets| == 0 then 0 else buckets[0].tokens + SumTokens(buckets[1..])
  }

  /** `sum(log.total_tokens for log in logs)`. */
  function TokenSum(logs: seq<UsageLog>): int
  {
    if |logs| == 0 then 0 else TokenSum(logs[..|logs| - 1]) + logs[|logs| - 1].totalTokens
  }

  /** How many of `logs` fall under `key`. */
  function CountKey(logs: seq<UsageLog>, keyOf: UsageLog -> string, key: string): nat
  {
    if |logs| == 0 then 0
    else CountKey(logs[..|logs| - 1], keyOf, key) + (if keyOf(logs[|logs| - 1]) == key then 1 else 0)
  }

  /** The tokens of the logs under `key`. */
  function TokensOfKey(logs: seq<UsageLog>, keyOf: UsageLog -> string, key: string): int
  {
    if |logs| == 0 then 0
    else TokensOfKey(logs[..|logs| - 1], keyOf, key) + (if keyOf(logs[|logs| - 1]) == key then logs[|logs| - 1].totalTokens else 0)
  }

  /** The keys of the buckets. */
  function Keys(buckets: seq<Bucket>): set<string>
  {
    if |buckets| == 0 then {} else {buckets[0].key} + Keys(buckets[1..])
  }

  /** No key has two buckets. */
  predicate KeysDistinct(buckets: seq<Bucket>)
  {
    |buckets| == 0 || (buckets[0].key !in Keys(buckets[1..]) && KeysDistinct(buckets[1..]))
  }

  /** The bucket of `key`, if there is one. */
  function Lookup(buckets: seq<Bucket>, key: string): (r: Option<Bucket>)
    ensures r.Some? ==> r.value.key == key
  {
    if |buckets| == 0 then None
    else if buckets[0].key == key then Some(buckets[0])
    else Lookup(buckets[1..], key)
  }

  /** A key has a bucket exactly when it is one of the keys, and the bucket found is one of the buckets. */
  lemma {:induction false} LookupKeys(buckets: seq<Bucket>, key: string)
    ensures Lookup(buckets, key).None? <==> key !in Keys(buckets)
    ensures Lookup(buckets, key).Some? ==> Lookup(buckets, key).value in buckets
  {
    if |buckets| > 0 && buckets[0].key != key {
      LookupKeys(buckets[1..], key);
    }
  }

  /** Bumping adds one request and the log's tokens to the totals. */
  lemma {:induction false} BumpTotals(buckets: seq<Bucket>, key: string, tokens: int)
    ensures SumRequests(Bump(buckets, key, tokens)) == SumRequests(buckets) + 1
    ensures SumTokens(Bump(buckets, key, tokens)) == SumTokens(buckets) + tokens
    decreases |buckets|
  {
    if |buckets| > 0 && buckets[0].key != key {
      BumpTotals(buckets[1..], key, tokens);
    }
  }

  /** Bumping `key` adds one request and `tokens` to its bucket, creating it if needed. */
  lemma {:induction false} BumpLookup(buckets: seq<Bucket>, key: string, tokens: int)
    ensures Lookup(buckets, key).None? ==> Lookup(Bump(buckets, key, tokens), key) == Some(Bucket(key, 1, tokens))
    ensures Lookup(buckets, key).Some? ==>
      Lookup(Bump(buckets, key, tokens), key) ==
      Some(Bucket(key, Lookup(buckets, key).value.requests + 1, Lookup(buckets, key).value.tokens + tokens))
    decreases |buckets|
  {
    if |buckets| > 0 && buckets[0].key != key {
      var b := Bump(buckets, key, tokens);
      assert b[0] == buckets[0] && b[1..] == Bump(buckets[1..], key, tokens);
      BumpLookup(buckets[1..], key, tokens);
    }
  }

  /** Bumping `key` leaves every other key's bucket alone. */
  lemma {:induction false} BumpLookupOther(buckets: seq<Bucket>, key: string, tokens: int, other: string)
    requires other != key
    ensures Lookup(Bump(buckets, key, tokens), other) == Lookup(buckets, other)
    decreases |buckets|
  {
    if |buckets| > 0 && buckets[0].key != key {
      var b := Bump(buckets, key, tokens);
      assert b[0] == buckets[0] && b[1..] == Bump(buckets[1..], key, tokens);
      BumpLookupOther(buckets[1..], key, tokens, other);
    } else if |buckets| > 0 {
      var b := Bump(buckets, key, tokens);
      assert b[0].key == key && b[1..] == buckets[1..];
    }
  }

  /** Bumping adds `key` to the keys and keeps them distinct. */
  lemma {:induction false} BumpDistinct(buckets: seq<Bucket>, key: string, tokens: int)
    requires KeysDistinct(buckets)
    ensures Keys(Bump(buckets, key, tokens)) == Keys(buckets) + {key}
    ensures KeysDistinct(Bump(buckets, key, tokens))
    decreases |buckets|
  {
    if |buckets| > 0 && buckets[0].key != key {
      BumpDistinct(buckets[1..], key, tokens);
      assert Bump(buckets, key, tokens)[1..] == Bump(buckets[1..], key, tokens);
    } else if |buckets| > 0 {
      assert Bump(buckets, key, tokens)[1..] == buckets[1..];
    }
  }

  /** A key no log falls under has no bucket after the loop over `logs`. */
  lemma {:induction false} AggregateLookupNone(logs: seq<UsageLog>, keyOf: UsageLog -> string, key: string)
    requires CountKey(logs, keyOf, key) == 0
    ensures Lookup(Aggregate(logs, keyOf), key) == None
    decreases |logs|
  {
    if |logs| > 0 {
      var init := logs[..|logs| - 1];
      var last := logs[|logs| - 1];
      assert Aggregate(logs, keyOf) == Bump(Aggregate(init, keyOf), keyOf(last), last.totalTokens);
      AggregateLookupNone(init, keyOf, key);
      BumpLookupOther(Aggregate(init, keyOf), keyOf(last), last.totalTokens, key);
    }
  }

  /** The per-key bucket a loop over `logs` leaves holds the count and tokens of the logs under that key. */
  lemma {:induction false} AggregateLookup(logs: seq<UsageLog>, keyOf: UsageLog -> string, key: string)
    requires CountKey(logs, keyOf, key) > 0
    ensures Lookup(Aggregate(logs, keyOf), key) == Some(Bucket(key, CountKey(logs, keyOf, key), TokensOfKey(logs, keyOf, key)))
    decreases |logs|
  {
    var init := logs[..|logs| - 1];
    var last := logs[|logs| - 1];
    var before := Aggregate(init, keyOf);
    assert Aggregate(logs, keyOf) == Bump(before, keyOf(last), last.totalTokens);
    if keyOf(last) != key {
      AggregateLookup(init, keyOf, key);
      BumpLookupOther(before, keyOf(last), last.totalTokens, key);
    } else if CountKey(init, keyOf, key) == 0 {
      AggregateLookupNone(init, keyOf, key);
      NoLogsNoTokens(init, keyOf, key);
      BumpLookup(before, key, last.totalTokens);
    } else {
      AggregateLookup(init, keyOf, key);
      BumpLookup(before, key, last.totalTokens);
    }
  }

  /** A key no log falls under has no tokens. */
  lemma {:induction false} NoLogsNoTokens(logs: seq<UsageLog>, keyOf: UsageLog -> string, key: string)
    ensures CountKey(logs, keyOf, key) == 0 ==> TokensOfKey(logs, keyOf, key) == 0
    decreases |logs|
  {
    if |logs| > 0 {
      NoLogsNoTokens(logs[..|logs| - 1], keyOf, key);
    }
  }

  /** The loop over `logs` makes exactly one bucket for each key that occurs in them. */
  lemma {:induction false} AggregateDistinct(logs: seq<UsageLog>, keyOf: UsageLog -> string)
    ensures KeysDistinct(Aggregate(logs, keyOf))
    ensures Keys(Aggregate(logs, keyOf)) == set l | l in logs :: keyOf(l)
    decreases |logs|
  {
    if |logs| > 0 {
      var init := logs[..|logs| - 1];
      var last := logs[|logs| - 1];
      AggregateDistinct(init, keyOf);
      BumpDistinct(Aggregate(init, keyOf), keyOf(last), last.totalTokens);
      assert logs == init + [last];
      assert (set l | l in logs :: keyOf(l)) == (set l | l in init :: keyOf(l)) + {keyOf(last)};
    }
  }

  /** The request counts of the buckets add up to the number of logs, and their tokens to the token total. */
  lemma {:induction false} AggregateTotals(logs: seq<UsageLog>, keyOf: UsageLog -> string)
    ensures SumRequests(Aggregate(logs, keyOf)) == |logs|
    ensures SumTokens(Aggregate(logs, keyOf)) == TokenSum(logs)
    decreases |logs|
  {
    if |logs| > 0 {
      var last := logs[|logs| - 1];
      AggregateTotals(logs[..|logs| - 1], keyOf);
      BumpTotals(Aggregate(logs[..|logs| - 1], keyOf), keyOf(last), last.totalTokens);
    }
  }

  // ------------------------------------------------------------ statistics

  /** The integer part of `get_user_usage_stats`; `period_days` is reported only for a non-empty window. */
  datatype UsageStats = UsageStats(
    totalRequests: nat, totalTokens: int, byModel: seq<Bucket>, byOperation: seq<Bucket>, periodDays: Option<int>)

  predicate InWindow(l: UsageLog, userId: Id, start: Time)
  {
    l.userId == userId && l.createdAt >= start
  }

  /** The statistics of the logs in a window, as the two bucket loops leave them. */
  function StatsOf(window: seq<UsageLog>, days: int): UsageStats
  {
    if |window| == 0 then UsageStats(0, 0, [], [], None)
    else UsageStats(|window|, TokenSum(window), Aggregate(window, ModelOf), Aggregate(window, OperationOf), Some(days))
  }

  /**
   * The totals agree with the buckets: the requests of `usage_by_model` and
   * of `usage_by_operation` each add up to `total_requests`, their tokens to
   * `total_tokens`, and an empty window reports zeros and no buckets.
   */
  lemma StatsAgree(window: seq<UsageLog>, days: int)
    ensures var s := StatsOf(window, days);
      && s.totalRequests == |window|
      && SumRequests(s.byModel) == s.totalRequests && SumRequests(s.byOperation) == s.totalRequests
      && SumTokens(s.byModel) == s.totalTokens && SumTokens(s.byOperation) == s.totalTokens
      && (|window| == 0 <==> s == UsageStats(0, 0, [], [], None))
  {
    AggregateTotals(window, ModelOf);
    AggregateTotals(window, OperationOf);
  }

  // ------------------------------------------------------ provider messages

  /** The LangChain message classes `chat` builds. */
  datatype ProviderMessage = Human(content: string) | Ai(content: string) | System(content: string)

  /** The provider message for a stored one; a role other than user, assistant or system has none. */
  function ToProvider(m: Message): (r: Option<ProviderMessage>)
    ensures r.Some? <==> m.role in {"user", "assistant", "system"}
    ensures r.Some? ==> r.value.content == m.content
  {
    if m.role == "user" then Some(Human(m.content))
    else if m.role == "assistant" then Some(Ai(m.content))
    else if m.role == "system" then Some(System(m.content))
    else None
  }

  /** The provider messages for a history, in its order. */
  function ProviderMessages(history: seq<Message>): (r: seq<ProviderMessage>)
    ensures |r| <= |history|
  {
    if |history| == 0 then []
    else
      var m := history[|history| - 1];
      ProviderMessages(history[..|history| - 1]) + (match ToProvider(m) case Some(p) => [p] case None => [])
  }

  /** When every role is known, each stored message becomes exactly one provider message, in order; when none is, nothing is sent. */
  lemma {:induction false} ProviderMessagesMapped(history: seq<Message>)
    ensures (forall k :: 0 <= k < |history| ==> ToProvider(history[k]).Some?) ==>
      |ProviderMessages(history)| == |history| &&
      forall k :: 0 <= k < |history| ==> ProviderMessages(history)[k] == ToProvider(history[k]).value
    ensures (forall k :: 0 <= k < |history| ==> ToProvider(history[k]).None?) ==> ProviderMessages(history) == []
  {
    if |history| > 0 {
      var init := history[..|history| - 1];
      assert forall k :: 0 <= k < |init| ==> init[k] == history[k];
      ProviderMessagesMapped(init);
    }
  }

  /**
   * The list `chat` sends: the recent history (newest first, as fetched)
   * reversed into chronological order and mapped, then the current message.
   */
  method BuildProviderMessages(recent: seq<Message>, current: string) returns (out: seq<ProviderMessage>)
    ensures out == ProviderMessages(Reverse(recent)) + [Human(current)]
    ensures |out| <= |recent| + 1 && out[|out| - 1] == Human(current)
  {
    var messages := Reverse(recent);
    out := [];
    var i := 0;
    while i < |messages|
      invariant 0 <= i <= |messages|
      invariant out == ProviderMessages(messages[..i])
    {
      var msg := messages[i];
      assert messages[..i + 1][..i] == messages[..i];
      if msg.role == "user" {
        out := out + [Human(msg.content)];
      } else if msg.role == "assistant" {
        out := out + [Ai(msg.content)];
      } else if msg.role == "system" {
        out := out + [System(msg.content)];
      }
      i := i + 1;
    }
    assert messages[..i] == messages;
    out := out + [Human(current)];
  }

  /**
   * When the fetched history (newest first) starts with the pending user
   * message, as it does once the pending row is flushed, the provider
   * receives that message twice, as the last two messages.
   */
  lemma PendingMessageTwice(pending: Message, older: seq<Message>, current: string)
    requires pending.role == "user" && pending.content == current
    ensures ProviderMessages(Reverse([pending] + older)) + [Human(current)]
         == ProviderMessages(Reverse(older)) + [Human(current), Human(current)]
  {
    ReverseCons(pending, older);
    var h := Reverse(older) + [pending];
    assert h[..|h| - 1] == Reverse(older);
  }

  /** The conversations of one user, in table order. */
  function OwnedBy(cs: seq<Conversation>, userId: Id): (r: seq<Conversation>)
    ensures forall k :: 0 <= k < |r| ==> r[k].userId == userId && r[k] in cs
    ensures forall c :: c in cs && c.userId == userId ==> c in r
  {
    var r := Filter(cs, (c: Conversation) => c.userId == userId);
    assert forall k :: 0 <= k < |r| ==> r[k] in multiset(cs);
    r
  }

  /** The query of `get_user_conversations`: one user's conversations, most recently updated first, at most `limit`. */
  function RecentFirst(cs: seq<Conversation>, userId: Id, limit: nat): (r: seq<Conversation>)
    ensures |r| == if limit < |OwnedBy(cs, userId)| then limit else |OwnedBy(cs, userId)|
    ensures forall k :: 0 <= k < |r| ==> r[k] in cs && r[k].userId == userId
    ensures forall i, j :: 0 <= i < j < |r| ==> r[i].updatedAt >= r[j].updatedAt
    ensures forall c, k :: c in multiset(OwnedBy(cs, userId)) - multiset(r) && 0 <= k < |r| ==> c.updatedAt <= r[k].updatedAt
  {
    var own := OwnedBy(cs, userId);
    var top := TopN(own, limit, ConversationUpdatedAt);
    assert forall k :: 0 <= k < |top| ==> top[k] in own;
    top
  }

  /** `to_dict()` of each conversation, without messages. */
  function Summaries(cs: seq<Conversation>, msgs: seq<Message>): (r: seq<ConversationDict>)
    ensures |r| == |cs|
    ensures forall k :: 0 <= k < |r| ==> r[k] == ConversationToDict(cs[k], msgs, false)
    ensures forall k :: 0 <= k < |r| ==> r[k].userId == cs[k].userId && r[k].updatedAt == cs[k].updatedAt
  {
    seq(|cs|, k requires 0 <= k < |cs| => ConversationToDict(cs[k], msgs, false))
  }

  /** Conversation ids are unique and were all handed out before `nextId`. */
  ghost predicate ConversationIdsOk(cs: seq<Conversation>, nextId: nat)
  {
    && (forall i, j :: 0 <= i < j < |cs| ==> cs[i].id != cs[j].id)
    && (forall c :: c in cs ==> c.id < nextId)
  }

  /** Removing one conversation keeps the ids in order and leaves no other conversation with its id. */
  lemma RemoveConversationKeeps(cs: seq<Conversation>, k: nat, nextId: nat)
    requires ConversationIdsOk(cs, nextId) && k < |cs|
    ensures ConversationIdsOk(RemoveAt(cs, k), nextId)
    ensures forall c :: c in RemoveAt(cs, k) ==> c.id != cs[k].id
  {
    var r := RemoveAt(cs, k);
    forall c | c in r ensures c.id != cs[k].id && c.id < nextId {
      var i :| 0 <= i < |r| && r[i] == c;
      if i < k {
        assert c == cs[i];
      } else {
        assert c == cs[i + 1];
      }
    }
    forall i, j | 0 <= i < j < |r| ensures r[i].id != r[j].id {
      assert r[i] == cs[if i < k then i else i + 1];
      assert r[j] == cs[if j < k then j else j + 1];
    }
  }

  // ----------------------------------------------------------------- store

  /** The conversation, message and usage-log tables, updated in place. */
  class LlmStore {
    var conversations: seq<Conversation>
    var messages: seq<Message>
    var usageLogs: seq<UsageLog>
    var nextId: nat

    ghost predicate Valid()
      reads this
    {
      && ConversationIdsOk(conversations, nextId)
      && (forall l :: l in usageLogs ==> l.id < nextId)
    }

    constructor ()
      ensures Valid() && conversations == [] && messages == [] && usageLogs == []
    {
      conversations, messages, usageLogs, nextId := [], [], [], 0;
    }

    /** `get_user_conversations(user_id, limit)`: the user's conversations, most recently updated first. */
    function GetUserConversations(userId: Id, limit: nat): (r: seq<ConversationDict>)
      reads this
      ensures |r| == if limit < |OwnedBy(conversations, userId)| then limit else |OwnedBy(conversations, userId)|
      ensures forall k :: 0 <= k < |r| ==> r[k].userId == userId
      ensures forall i, j :: 0 <= i < j < |r| ==> r[i].updatedAt >= r[j].updatedAt
      ensures forall k :: 0 <= k < |r| ==>
        exists c :: c in conversations && c.userId == userId && r[k] == ConversationToDict(c, messages, false)
      ensures |r| == |RecentFirst(conversations, userId, limit)|
      ensures forall k :: 0 <= k < |r| ==> r[k] == ConversationToDict(RecentFirst(conversations, userId, limit)[k], messages, false)
    {
      Summaries(RecentFirst(conversations, userId, limit), messages)
    }

    /** `delete_conversation`: only the caller's own conversation goes, with its messages. */
    method DeleteConversation(conversationId: Id, userId: Id) returns (r: Result<string>)
      requires Valid()
      modifies this
      ensures Valid()
      ensures (forall k :: 0 <= k < |old(conversations)| ==>
                 old(conversations)[k].id != conversationId || old(conversations)[k].userId != userId)
              ==> r == Err(CONVERSATION_NOT_FOUND) && unchanged(this)
      ensures (exists k :: 0 <= k < |old(conversations)| && old(conversations)[k].id == conversationId
                 && old(conversations)[k].userId == userId) ==> r.Ok?
      ensures r.Ok? ==>
        && r.value == CONVERSATION_DELETED
        && (exists k :: 0 <= k < |old(conversations)| && old(conversations)[k].id == conversationId
              && old(conversations)[k].userId == userId && conversations == RemoveAt(old(conversations), k))
        && messages == Filter(old(messages), (m: Message) => !InConversation(m, conversationId))
        && usageLogs == old(usageLogs) && nextId == old(nextId)
      ensures r.Ok? || r == Err(CONVERSATION_NOT_FOUND)
      ensures r.Ok? ==> forall c :: c in conversations ==> c.id != conversationId
    {
      var found := FirstIndex(conversations, (c: Conversation) => c.id == conversationId && c.userId == userId);
      if found.None? {
        return Err(CONVERSATION_NOT_FOUND);
      }
      var k := found.value;
      RemoveConversationKeeps(conversations, k, nextId);
      conversations := RemoveAt(conversations, k);
      messages := Filter(messages, (m: Message) => !InConversation(m, conversationId));
      r := Ok(CONVERSATION_DELETED);
    }

    /** `_log_usage`: one new log whose total is the sum of its prompt and completion tokens. */
    method LogUsage(userId: Id, conversationId: Option<Id>, model: string, operation: string,
                    promptTokens: int, completionTokens: int, now: Time)
      requires Valid()
      modifies this
      ensures Valid()
      ensures usageLogs == old(usageLogs) + [UsageLog(old(nextId), userId, conversationId, model, operation,
                                                       promptTokens, completionTokens, promptTokens + completionTokens, now)]
      ensures conversations == old(conversations) && messages == old(messages)
    {
      var totalTokens := promptTokens + completionTokens;
      usageLogs := usageLogs + [UsageLog(nextId, userId, conversationId, model, operation,
                                         promptTokens, completionTokens, totalTokens, now)];
      nextId := nextId + 1;
    }

    /** The logs `get_user_usage_stats` reads: the user's, from `days` days before `now` on. */
    function Window(userId: Id, days: int, now: Time): (w: seq<UsageLog>)
      reads this
      ensures forall k :: 0 <= k < |w| ==> w[k].userId == userId && w[k].createdAt >= now - days * DAY
      ensures forall l :: l in usageLogs && InWindow(l, userId, now - days * DAY) ==> l in w
    {
      Filter(usageLogs, (l: UsageLog) => InWindow(l, userId, now - days * DAY))
    }

    /** `get_user_usage_stats`, without costs and response times. */
    method GetUserUsageStats(userId: Id, days: int, now: Time) returns (stats: UsageStats)
      ensures stats == StatsOf(Window(userId, days, now), days)
      ensures stats.totalRequests == |Window(userId, days, now)|
      ensures SumRequests(stats.byModel) == stats.totalRequests && SumRequests(stats.byOperation) == stats.totalRequests
      ensures SumTokens(stats.byModel) == stats.totalTokens && SumTokens(stats.byOperation) == stats.totalTokens
    {
      var logs := Window(userId, days, now);
      StatsAgree(logs, days);
      if |logs| == 0 {
        return UsageStats(0, 0, [], [], None);
      }
      var byModel := [];
      var i := 0;
      while i < |logs|
        invariant 0 <= i <= |logs|
        invariant byModel == Aggregate(logs[..i], ModelOf)
      {
        assert logs[..i + 1][..i] == logs[..i];
        byModel := Bump(byModel, logs[i].modelName, logs[i].totalTokens);
        i := i + 1;
      }
      var byOperation := [];
      i := 0;
      while i < |logs|
        invariant 0 <= i <= |logs|
        invariant byOperation == Aggregate(logs[..i], OperationOf)
      {
        assert logs[..i + 1][..i] == logs[..i];
        byOperation := Bump(byOperation, logs[i].operationType, logs[i].totalTokens);
        i := i + 1;
      }
      assert logs[..|logs|] == logs;
      stats := UsageStats(|logs|, TokenSum(logs), byModel, byOperation, Some(days));
    }
  }
}
