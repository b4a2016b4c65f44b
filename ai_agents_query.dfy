/**
 * `aiAgentsQueryKeys` of src/queries/ai-agents.query.ts and what each
 * mutation removes and invalidates on success. This family lives under
 * the root `"ai-agents"`, apart from the `"ai"` family of
 * src/queries/ai.query.ts.
 */
module AiAgentsQuery {
  import opened QueryKey
  import AiQuery

  // ===== aiAgentsQueryKeys =====

  function All(): Key { [Str("ai-agents")] }
  function Lists(): Key { All() + [Str("list")] }
  function List(params: KeyPart): Key { Lists() + [params] }
  function Details(): Key { All() + [Str("detail")] }
  function Detail(id: int): Key { Details() + [Num(id)] }

  lemma KeyHierarchy(params: KeyPart, id: int)
    ensures IsProperPrefix(Lists(), List(params)) && IsProperPrefix(Details(), Detail(id))
    ensures Diverge(Lists(), Details())
  {
    assert Lists()[1] != Details()[1];
  }

  // ===== onSuccess of each mutation =====

  function CreateAgentEffect(): Effect { Effect([], [Lists()]) }
  function UpdateAgentEffect(agentId: int): Effect { Effect([], [Detail(agentId), Lists()]) }
  function DeleteAgentEffect(agentId: int): Effect { Effect([Detail(agentId)], [Lists()]) }

  /** Creating an agent marks stale only the lists; updating one marks
      stale its detail and the lists; deleting one drops its detail and
      marks stale the lists. No other agent's detail is touched. */
  lemma AgentMutationsTouch(id: int, other: int, key: Key)
    ensures Invalidates(CreateAgentEffect(), key) <==> IsPrefix(Lists(), key)
    ensures !Removes(CreateAgentEffect(), key) && !Removes(UpdateAgentEffect(id), key)
    ensures Invalidates(UpdateAgentEffect(id), key) <==> IsPrefix(Detail(id), key) || IsPrefix(Lists(), key)
    ensures Invalidates(DeleteAgentEffect(id), key) <==> IsPrefix(Lists(), key)
    ensures Removes(DeleteAgentEffect(id), key) <==> IsPrefix(Detail(id), key)
    ensures other != id && IsPrefix(Detail(other), key) ==>
      Untouched(UpdateAgentEffect(id), key) && Untouched(DeleteAgentEffect(id), key)
  {
    InvalidatesUnderTop(CreateAgentEffect(), 0, key);
    InvalidatesEither(UpdateAgentEffect(id), key);
    InvalidatesUnderTop(DeleteAgentEffect(id), 0, key);
    RemovesUnder(DeleteAgentEffect(id), key);
    if other != id && IsPrefix(Detail(other), key) {
      KeyHierarchy(Undefined, other);
      assert Detail(other)[1] != Lists()[1];
      DivergeDisjoint(Lists(), Detail(other), key);
      assert Detail(id)[2] != Detail(other)[2];
      DivergeDisjoint(Detail(id), Detail(other), key);
    }
  }

  /** The two agent key families never touch each other's entries: every
      filter one family's mutations issue diverges from the other's root. */
  lemma FamiliesSeparate(id: int, a: int, key: Key)
    ensures IsPrefix(AiQuery.All(), key) ==>
      Untouched(CreateAgentEffect(), key) && Untouched(UpdateAgentEffect(id), key) && Untouched(DeleteAgentEffect(id), key)
    ensures IsPrefix(All(), key) ==>
      && Untouched(AiQuery.CreateAgentEffect(), key) && Untouched(AiQuery.UpdateAgentEffect(id), key)
      && Untouched(AiQuery.DeleteAgentEffect(id), key) && Untouched(AiQuery.SendMessageEffect(a), key)
  {
    assert All()[0] != AiQuery.All()[0];
    if IsPrefix(AiQuery.All(), key) {
      UntouchedUnder(CreateAgentEffect(), AiQuery.All(), key);
      UntouchedUnder(UpdateAgentEffect(id), AiQuery.All(), key);
      UntouchedUnder(DeleteAgentEffect(id), AiQuery.All(), key);
    }
    if IsPrefix(All(), key) {
      UntouchedUnder(AiQuery.CreateAgentEffect(), All(), key);
      UntouchedUnder(AiQuery.UpdateAgentEffect(id), All(), key);
      UntouchedUnder(AiQuery.DeleteAgentEffect(id), All(), key);
      UntouchedUnder(AiQuery.SendMessageEffect(a), All(), key);
    }
  }
}
