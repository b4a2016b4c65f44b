/**
 * `aiQueryKeys` of src/queries/ai.query.ts, the `enabled` default of
 * `useGetAIAgent`, and what each mutation removes and invalidates on
 * success.
 */
module AiQuery {
  import opened Wrappers
  import opened QueryKey

  // ===== aiQueryKeys =====

  function All(): Key { [Str("ai")] }
  function Agents(): Key { All() + [Str("agents")] }
  function Agent(id: int): Key { Agents() + [Num(id)] }
  function AgentsList(params: KeyPart): Key { Agents() + [Str("list"), params] }
  function Chats(): Key { All() + [Str("chats")] }
  /** `chatSession(agentId, sessionId?)`: an omitted session id stays in
      the key as an `undefined` element. */
  function ChatSession(agentId: int, sessionId: Option<string>): Key {
    Chats() + [Num(agentId), if sessionId.Some? then Str(sessionId.value) else Undefined]
  }

  /** `agents()` heads every agent key; agent keys and chat keys are disjoint;
      a chat-session key always has four elements. */
  lemma KeyHierarchy(id: int, params: KeyPart, a: int, s: Option<string>)
    ensures IsProperPrefix(Agents(), Agent(id)) && IsProperPrefix(Agents(), AgentsList(params))
    ensures Diverge(Agents(), Chats())
    ensures |ChatSession(a, s)| == 4 && IsPrefix(Chats(), ChatSession(a, s))
  {
    assert Agents()[1] != Chats()[1];
  }

  // ===== useGetAIAgent =====

  /** The `options` argument: absent, or an object whose `enabled` may be absent. */
  datatype AgentQueryOptions = AgentQueryOptions(enabled: Option<bool>)

  /** The key and `enabled` flag `useGetAIAgent` hands to `useQuery`. */
  datatype QueryConfig = QueryConfig(key: Key, enabled: bool)

  /** `enabled: options?.enabled ?? true`. */
  function GetAgentQuery(agentId: int, options: Option<AgentQueryOptions>): (q: QueryConfig)
    ensures q.key == Agent(agentId)
    ensures !q.enabled <==> options.Some? && options.value.enabled == Some(false)
  {
    QueryConfig(Agent(agentId),
      if options.Some? && options.value.enabled.Some? then options.value.enabled.value else true)
  }

  // ===== onSuccess of each mutation =====

  function CreateAgentEffect(): Effect { Effect([], [Agents()]) }
  function UpdateAgentEffect(agentId: int): Effect { Effect([], [Agent(agentId), Agents()]) }
  function DeleteAgentEffect(agentId: int): Effect { Effect([Agent(agentId)], [Agents()]) }
  function SendMessageEffect(agentId: int): Effect { Effect([], [ChatSession(agentId, None)]) }
  /** The streaming send and the prompt enhancement have no `onSuccess`. */
  function SendMessageStreamEffect(): Effect { NoEffect }
  function EnhanceSystemPromptEffect(): Effect { NoEffect }

  /** Each agent mutation marks stale exactly the entries under `agents()`,
      deletion also drops the entries under the agent's own key, and no chat
      entry is touched. */
  lemma AgentMutationsTouch(id: int, key: Key)
    ensures Invalidates(CreateAgentEffect(), key) <==> IsPrefix(Agents(), key)
    ensures Invalidates(UpdateAgentEffect(id), key) <==> IsPrefix(Agents(), key)
    ensures Invalidates(DeleteAgentEffect(id), key) <==> IsPrefix(Agents(), key)
    ensures Removes(DeleteAgentEffect(id), key) <==> IsPrefix(Agent(id), key)
    ensures IsPrefix(Chats(), key) ==>
      Untouched(CreateAgentEffect(), key) && Untouched(UpdateAgentEffect(id), key) && Untouched(DeleteAgentEffect(id), key)
  {
    KeyHierarchy(id, Undefined, 0, None);
    InvalidatesUnderTop(CreateAgentEffect(), 0, key);
    InvalidatesUnderTop(UpdateAgentEffect(id), 1, key);
    InvalidatesUnderTop(DeleteAgentEffect(id), 0, key);
    RemovesUnder(DeleteAgentEffect(id), key);
    if IsPrefix(Chats(), key) {
      DivergeDisjoint(Agents(), Chats(), key);
      assert Agent(id)[1] != Chats()[1];
      DivergeDisjoint(Agent(id), Chats(), key);
    }
  }

  /** Sending a message marks stale the agent's session-less chat entry
      and nothing else: not a chat session that has an id, not another
      agent's chats, not any agent entry. */
  lemma SendMessageTouches(a: int, b: int, s: Option<string>)
    ensures Invalidates(SendMessageEffect(a), ChatSession(b, s)) <==> a == b && s.None?
    ensures !Removes(SendMessageEffect(a), ChatSession(b, s))
  {
    var f := SendMessageEffect(a).invalidated[0];
    var k := ChatSession(b, s);
    InvalidatesUnderTop(SendMessageEffect(a), 0, k);
    assert f[2] == Num(a) && k[2] == Num(b) && f[3] == Undefined;
    if s.Some? {
      assert k[3] == Str(s.value);
    }
  }

  /** ... nor any key under `agents()`. */
  lemma SendMessageSparesAgents(a: int, key: Key)
    requires IsPrefix(Agents(), key)
    ensures Untouched(SendMessageEffect(a), key)
  {
    KeyHierarchy(0, Undefined, a, None);
    assert ChatSession(a, None)[1] != Agents()[1];
    DivergeDisjoint(ChatSession(a, None), Agents(), key);
  }

  /** The streaming mutation and the prompt enhancement touch no cache entry. */
  lemma NoEffectMutations(key: Key)
    ensures Untouched(SendMessageStreamEffect(), key) && Untouched(EnhanceSystemPromptEffect(), key)
  {
  }
}
