/** The stateful side of the chat service (services/chat.rs): the
    conversations collection, the conversation cache ("conversation:{id}"
    entries, keyed here by conversation id), and the per-user message rate
    counters ("chat_rate_limit:{user}"). The model's answer and the start of
    a streamed answer are function parameters; fresh ids and the clock are
    parameters of the operations that need them. */
module Chat {
  import opened Wrappers
  import opened ChatText

  datatype Conversation = Conversation(
    conversationId: string,
    projectId: string,
    userId: string,
    title: string,
    messages: seq<ChatMessage>,
    createdAt: int,
    updatedAt: int)

  /** Rust `n as i32`: the low 32 bits, read as a signed number. */
  function AsI32(n: int): (r: int)
    ensures -0x8000_0000 <= r < 0x8000_0000
    ensures 0 <= n < 0x8000_0000 ==> r == n
  {
    var m := n % 0x1_0000_0000;
    if m >= 0x8000_0000 then m - 0x1_0000_0000 else m
  }

  function RateKey(userId: string): string {
    "chat_rate_limit:" + userId
  }

  /** What `get_conversation` returns: the cached copy when it belongs to the
      caller, otherwise the stored conversation with that id and owner. */
  function Lookup(cache: map<string, Conversation>, conversations: map<string, Conversation>,
                  id: string, userId: string): (r: Option<Conversation>)
    ensures r.Some? ==> r.value.userId == userId
    ensures id in cache && cache[id].userId == userId ==> r == Some(cache[id])
    ensures r.None? <==>
      !(id in cache && cache[id].userId == userId) && !(id in conversations && conversations[id].userId == userId)
  {
    if id in cache && cache[id].userId == userId then Some(cache[id])
    else if id in conversations && conversations[id].userId == userId then Some(conversations[id])
    else None
  }

  /** The cache after `get_conversation`: a copy read from the collection is
      cached; a hit or a miss leaves the cache as it was. */
  function CacheAfterLookup(cache: map<string, Conversation>, conversations: map<string, Conversation>,
                            id: string, userId: string): map<string, Conversation>
  {
    if id in cache && cache[id].userId == userId then cache
    else if id in conversations && conversations[id].userId == userId then cache[id := conversations[id]]
    else cache
  }

  /** Every cached conversation is the stored one. */
  predicate Coherent(cache: map<string, Conversation>, conversations: map<string, Conversation>) {
    forall id :: id in cache ==> id in conversations && cache[id] == conversations[id]
  }

  /** With a coherent cache, `get_conversation` is a lookup by id and owner,
      and reading keeps the cache coherent. */
  lemma CoherentLookup(cache: map<string, Conversation>, conversations: map<string, Conversation>,
                       id: string, userId: string)
    requires Coherent(cache, conversations)
    ensures Lookup(cache, conversations, id, userId)
         == (if id in conversations && conversations[id].userId == userId then Some(conversations[id]) else None)
    ensures Coherent(CacheAfterLookup(cache, conversations, id, userId), conversations)
  {
  }

  /** A new conversation: the title is computed from the first message and
      the history starts empty. */
  function NewConversation(id: string, projectId: string, userId: string, message: string, now: int): (c: Conversation)
    ensures c.messages == [] && c.conversationId == id && c.userId == userId && ByteLen(c.title) <= 50
  {
    Conversation(id, projectId, userId, Title(message), [], now, now)
  }

  /** Appends one message and moves the update time. */
  function Push(c: Conversation, m: ChatMessage, now: int): (c': Conversation)
    ensures c'.messages == c.messages + [m] && c'.updatedAt == now
    ensures c' == c.(messages := c.messages + [m], updatedAt := now)
  {
    c.(messages := c.messages + [m], updatedAt := now)
  }

  class ChatService {
    const rateLimitMessages: nat
    const rateLimitWindowSecs: nat
    const contextMessageLimit: nat
    var conversations: map<string, Conversation>
    var cache: map<string, Conversation>
    var counters: map<string, int>
    /** The counters whose expiry has been set. */
    var expiring: set<string>

    /** `chat_rate_limit_messages as i32`. */
    function Limit(): int {
      AsI32(rateLimitMessages)
    }

    /** Conversations are stored under their own ids; every counter lies
        between 1 and the limit and has its expiry set. */
    ghost predicate Valid()
      reads this
    {
      (forall id :: id in conversations ==> conversations[id].conversationId == id)
      && (forall id :: id in cache ==> cache[id].conversationId == id)
      && (forall k :: k in counters ==> 1 <= counters[k] <= Limit())
      && expiring == counters.Keys
    }

    constructor (rateLimitMessages: nat, rateLimitWindowSecs: nat, contextMessageLimit: nat)
      ensures Valid() && Coherent(cache, conversations)
      ensures this.rateLimitMessages == rateLimitMessages && this.rateLimitWindowSecs == rateLimitWindowSecs
      ensures this.contextMessageLimit == contextMessageLimit
      ensures conversations == map[] && cache == map[] && counters == map[]
    {
      this.rateLimitMessages := rateLimitMessages;
      this.rateLimitWindowSecs := rateLimitWindowSecs;
      this.contextMessageLimit := contextMessageLimit;
      conversations := map[];
      cache := map[];
      counters := map[];
      expiring := {};
    }

    // -------------------------------------------------------------------
    // check_rate_limit

    /** `check_rate_limit`: refuse without counting once the count has
        reached the limit; otherwise count the message, setting the expiry
        when the counter is new. */
    method CheckRateLimit(userId: string) returns (allowed: bool)
      requires Valid()
      modifies this`counters, this`expiring
      ensures Valid()
      ensures var key := RateKey(userId);
        var current := if key in old(counters) then old(counters)[key] else 0;
        (allowed <==> current < Limit())
        && (!allowed ==> counters == old(counters) && expiring == old(expiring))
        && (allowed ==> counters == old(counters)[key := current + 1]
                        && expiring == old(expiring) + {key})
    {
      var key := RateKey(userId);
      var count: Option<int> := if key in counters then Some(counters[key]) else None;
      var current := count.GetOr(0);
      if current >= AsI32(rateLimitMessages) {
        return false;
      }
      counters := counters[key := current + 1];
      if count.None? {
        expiring := expiring + {key};
      }
      allowed := true;
    }

    /** The end of a rate window: the counter expires. */
    method ExpireCounter(key: string)
      requires Valid()
      modifies this`counters, this`expiring
      ensures Valid()
      ensures counters == old(counters) - {key} && expiring == old(expiring) - {key}
    {
      counters := counters - {key};
      expiring := expiring - {key};
    }

    // -------------------------------------------------------------------
    // Conversations

    /** `get_conversation`. */
    method GetConversation(id: string, userId: string) returns (r: Option<Conversation>)
      requires Valid()
      modifies this`cache
      ensures Valid()
      ensures r == Lookup(old(cache), conversations, id, userId)
      ensures cache == CacheAfterLookup(old(cache), conversations, id, userId)
      ensures Coherent(old(cache), conversations) ==> Coherent(cache, conversations)
    {
      if id in cache && cache[id].userId == userId {
        return Some(cache[id]);
      }
      if id in conversations && conversations[id].userId == userId {
        var c := conversations[id];
        cache := cache[id := c];
        return Some(c);
      }
      r := None;
    }

    /** Evicting a cache entry (its time to live ran out). */
    method EvictConversation(id: string)
      requires Valid()
      modifies this`cache
      ensures Valid()
      ensures cache == old(cache) - {id}
      ensures Coherent(old(cache), conversations) ==> Coherent(cache, conversations)
    {
      cache := cache - {id};
    }

    /** `save_conversation`: replace by id, inserting when absent. */
    method Save(c: Conversation)
      requires Valid()
      modifies this`conversations
      ensures Valid()
      ensures conversations == old(conversations)[c.conversationId := c]
    {
      conversations := conversations[c.conversationId := c];
    }

    /** `cache_conversation`. */
    method CacheConversation(c: Conversation)
      requires Valid()
      modifies this`cache
      ensures Valid()
      ensures cache == old(cache)[c.conversationId := c]
    {
      cache := cache[c.conversationId := c];
    }

    /** Saving a conversation and caching the saved copy. */
    method Store(c: Conversation)
      requires Valid()
      modifies this`cache, this`conversations
      ensures Valid()
      ensures conversations == old(conversations)[c.conversationId := c]
      ensures cache == old(cache)[c.conversationId := c]
      ensures Coherent(old(cache), old(conversations)) ==> Coherent(cache, conversations)
    {
      Save(c);
      CacheConversation(c);
    }

    /** The conversation a send or stream works on: the caller's existing
        conversation, or a new one under `newId`. */
    method Open(userId: string, projectId: string, message: string, convId: Option<string>, newId: string, now: int)
      returns (r: Result<Conversation>)
      requires Valid()
      modifies this`cache
      ensures Valid()
      ensures convId.Some? ==> cache == CacheAfterLookup(old(cache), conversations, convId.value, userId)
      ensures convId.None? ==> cache == old(cache)
      ensures convId.Some? && Lookup(old(cache), conversations, convId.value, userId).None? ==>
        r == Err("Conversation not found")
      ensures convId.Some? && Lookup(old(cache), conversations, convId.value, userId).Some? ==>
        r == Ok(Lookup(old(cache), conversations, convId.value, userId).value)
      ensures convId.None? ==> r == Ok(NewConversation(newId, projectId, userId, message, now))
      ensures Coherent(old(cache), conversations) ==> Coherent(cache, conversations)
    {
      if convId.Some? {
        var found := GetConversation(convId.value, userId);
        if found.None? {
          return Err("Conversation not found");
        }
        r := Ok(found.value);
      } else {
        r := Ok(NewConversation(newId, projectId, userId, message, now));
      }
    }

    /** `send_message`: the user's message and the model's answer are
        appended, in that order, and the conversation is saved and cached.
        Nothing is saved when the model fails. */
    method SendMessage(userId: string, projectId: string, message: string, convId: Option<string>,
                       newId: string, ai: (string, Option<string>) -> Result<string>, now: int)
      returns (r: Result<(string, ChatMessage)>)
      requires Valid()
      requires convId.None? ==> newId !in conversations
      modifies this`cache, this`conversations
      ensures Valid()
      ensures convId.Some? && Lookup(old(cache), old(conversations), convId.value, userId).None? ==>
        r == Err("Conversation not found") && conversations == old(conversations)
      ensures r.Ok? ==>
        var base := if convId.Some? then Lookup(old(cache), old(conversations), convId.value, userId).value
                    else NewConversation(newId, projectId, userId, message, now);
        var withUser := Push(base, ChatMessage("user", message, now), now);
        var answer := ai(message, BuildContext(withUser.messages, contextMessageLimit));
        answer.Ok? && r.value == (base.conversationId, ChatMessage("assistant", answer.value, now))
        && conversations == old(conversations)[base.conversationId := Push(withUser, r.value.1, now)]
        && base.conversationId in cache && cache[base.conversationId] == conversations[base.conversationId]
        && conversations[base.conversationId].messages
           == base.messages + [ChatMessage("user", message, now), ChatMessage("assistant", answer.value, now)]
      ensures r.Err? ==> conversations == old(conversations)
      ensures Coherent(old(cache), old(conversations)) ==> Coherent(cache, conversations)
    {
      var got := Open(userId, projectId, message, convId, newId, now);
      if got.Err? {
        return Err(got.error);
      }
      var conversation := got.value;
      conversation := Push(conversation, ChatMessage("user", message, now), now);
      var context := BuildContext(conversation.messages, contextMessageLimit);
      var answer := ai(message, context);
      if answer.Err? {
        return Err(answer.error);
      }
      var reply := ChatMessage("assistant", answer.value, now);
      conversation := Push(conversation, reply, now);
      Store(conversation);
      r := Ok((conversation.conversationId, reply));
    }

    /** `stream_message` as written: the user's message is appended and the
        conversation saved, but the cache keeps the copy read before. */
    method StreamMessageAsWritten(userId: string, projectId: string, message: string, convId: Option<string>,
                                  newId: string, startStream: (string, Option<string>) -> Result<Unit>, now: int)
      returns (r: Result<string>)
      requires Valid()
      requires convId.None? ==> newId !in conversations
      modifies this`cache, this`conversations
      ensures Valid()
      ensures convId.Some? && Lookup(old(cache), old(conversations), convId.value, userId).None? ==>
        r == Err("Conversation not found") && conversations == old(conversations)
      ensures convId.Some? && Lookup(old(cache), old(conversations), convId.value, userId).Some? ==>
        var base := Lookup(old(cache), old(conversations), convId.value, userId).value;
        conversations == old(conversations)[base.conversationId := Push(base, ChatMessage("user", message, now), now)]
        && cache == CacheAfterLookup(old(cache), old(conversations), convId.value, userId)
        && (r.Ok? <==> startStream(message, BuildContext(base.messages + [ChatMessage("user", message, now)], contextMessageLimit)).Ok?)
      ensures convId.None? ==>
        conversations == old(conversations)[newId := Push(NewConversation(newId, projectId, userId, message, now),
                                                          ChatMessage("user", message, now), now)]
        && cache == old(cache)
      ensures r.Ok? ==> r.value == if convId.Some? then convId.value else newId
    {
      var got := Open(userId, projectId, message, convId, newId, now);
      if got.Err? {
        return Err(got.error);
      }
      var conversation := Push(got.value, ChatMessage("user", message, now), now);
      var context := BuildContext(conversation.messages, contextMessageLimit);
      Save(conversation);
      var stream := startStream(message, context);
      if stream.Err? {
        return Err(stream.error);
      }
      r := Ok(conversation.conversationId);
    }

    /** `stream_message` with the saved conversation also cached, as
        `send_message` and `append_assistant_message` do. */
    method StreamMessage(userId: string, projectId: string, message: string, convId: Option<string>,
                         newId: string, startStream: (string, Option<string>) -> Result<Unit>, now: int)
      returns (r: Result<string>)
      requires Valid()
      requires convId.None? ==> newId !in conversations
      modifies this`cache, this`conversations
      ensures Valid()
      ensures convId.Some? && Lookup(old(cache), old(conversations), convId.value, userId).None? ==>
        r == Err("Conversation not found") && conversations == old(conversations)
      ensures convId.Some? && Lookup(old(cache), old(conversations), convId.value, userId).Some? ==>
        var base := Lookup(old(cache), old(conversations), convId.value, userId).value;
        var saved := Push(base, ChatMessage("user", message, now), now);
        conversations == old(conversations)[base.conversationId := saved]
        && base.conversationId in cache && cache[base.conversationId] == saved
        && (r.Ok? <==> startStream(message, BuildContext(saved.messages, contextMessageLimit)).Ok?)
      ensures convId.None? ==>
        var saved := Push(NewConversation(newId, projectId, userId, message, now), ChatMessage("user", message, now), now);
        conversations == old(conversations)[newId := saved] && cache == old(cache)[newId := saved]
      ensures r.Ok? ==> r.value == if convId.Some? then convId.value else newId
      ensures Coherent(old(cache), old(conversations)) ==> Coherent(cache, conversations)
    {
      var got := Open(userId, projectId, message, convId, newId, now);
      if got.Err? {
        return Err(got.error);
      }
      var conversation := Push(got.value, ChatMessage("user", message, now), now);
      var context := BuildContext(conversation.messages, contextMessageLimit);
      Store(conversation);
      var stream := startStream(message, context);
      if stream.Err? {
        return Err(stream.error);
      }
      r := Ok(conversation.conversationId);
    }

    /** `append_assistant_message`: one assistant message is appended to the
        conversation as `get_conversation` returns it, then saved and cached. */
    method AppendAssistantMessage(id: string, userId: string, content: string, now: int) returns (r: Result<Unit>)
      requires Valid()
      modifies this`cache, this`conversations
      ensures Valid()
      ensures Lookup(old(cache), old(conversations), id, userId).None? ==>
        r == Err("Conversation not found") && conversations == old(conversations) && cache == old(cache)
      ensures Lookup(old(cache), old(conversations), id, userId).Some? ==>
        var saved := Push(Lookup(old(cache), old(conversations), id, userId).value, ChatMessage("assistant", content, now), now);
        r == Ok(Unit) && conversations == old(conversations)[saved.conversationId := saved]
        && cache == old(cache)[saved.conversationId := saved]
      ensures Coherent(old(cache), old(conversations)) ==> Coherent(cache, conversations)
    {
      var found := GetConversation(id, userId);
      if found.None? {
        return Err("Conversation not found");
      }
      var conversation := Push(found.value, ChatMessage("assistant", content, now), now);
      Store(conversation);
      r := Ok(Unit);
    }
  }

  /** Streaming into an existing conversation and then appending the answer,
      as written: `get_conversation` caches the copy read before the user's
      message, `stream_message` saves the message without refreshing the
      cache, and `append_assistant_message` appends to the stale cached copy
      and saves it, so the user's message is lost. */
  method StreamThenAppendAsWritten(svc: ChatService, id: string, userId: string, projectId: string,
                                   message: string, answer: string, newId: string,
                                   startStream: (string, Option<string>) -> Result<Unit>, now: int)
    requires svc.Valid() && Coherent(svc.cache, svc.conversations)
    requires id in svc.conversations && svc.conversations[id].userId == userId
    modifies svc
    ensures svc.Valid()
    ensures id in svc.conversations
    ensures svc.conversations[id].messages == old(svc.conversations[id].messages) + [ChatMessage("assistant", answer, now)]
  {
    ghost var before := svc.conversations[id];
    var streamed := svc.StreamMessageAsWritten(userId, projectId, message, Some(id), newId, startStream, now);
    assert svc.cache[id] == before;
    var appended := svc.AppendAssistantMessage(id, userId, answer, now);
  }

  /** The same sequence with the corrected `stream_message`: both messages
      are kept, the user's first. */
  method StreamThenAppend(svc: ChatService, id: string, userId: string, projectId: string,
                          message: string, answer: string, newId: string,
                          startStream: (string, Option<string>) -> Result<Unit>, now: int)
    requires svc.Valid() && Coherent(svc.cache, svc.conversations)
    requires id in svc.conversations && svc.conversations[id].userId == userId
    modifies svc
    ensures svc.Valid() && Coherent(svc.cache, svc.conversations) && id in svc.conversations
    ensures svc.conversations[id].messages
         == old(svc.conversations[id].messages) + [ChatMessage("user", message, now), ChatMessage("assistant", answer, now)]
  {
    ghost var before := svc.conversations[id];
    var streamed := svc.StreamMessage(userId, projectId, message, Some(id), newId, startStream, now);
    assert svc.conversations[id] == Push(before, ChatMessage("user", message, now), now);
    var appended := svc.AppendAssistantMessage(id, userId, answer, now);
  }
}
