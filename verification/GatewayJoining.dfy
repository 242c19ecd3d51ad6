/** Which requests share one physical call: a generation takes in everybody with its key until its leader closes it
    or it is full. */
module GatewayJoining {
  import opened Basics
  import opened Queues
  import opened Coalescing
  import opened Gateway
  import opened GatewayLanes
  import opened GatewaySlots
  import opened GatewayTheorems

  /** The leader has not closed its generation yet. */
  predicate BeforeClose(pc: Pc) {
    pc.Entering? || pc.Acquiring? || pc.AtLane? || pc.Queued? || pc.Settled?
  }

  /** Slot `k` is led by a request that has not closed it, and what its members submitted is below the limit. */
  predicate Accepting(s: System, k: nat) {
    && k < |s.table.slots| && s.table.slots[k].members != []
    && s.table.slots[k].members[0].id < |s.reqs|
    && BeforeClose(s.reqs[s.table.slots[k].members[0].id].pc)
    && Bytes(Originals(s, s.table.slots[k].members)) < s.config.limit
  }

  /** The leader of slot `k` has the provider and the queue key of request `r`. */
  predicate LedByOneLike(s: System, k: nat, r: Req) {
    && k < |s.table.slots| && s.table.slots[k].members != []
    && s.table.slots[k].members[0].id < |s.reqs|
    && var lead := s.reqs[s.table.slots[k].members[0].id];
       && lead.submitted.Some? && r.submitted.Some?
       && lead.provider == r.provider && lead.submitted.value.queueKey == r.submitted.value.queueKey
  }

  lemma {:induction false} OpenIffAccepting(s: System, k: nat)
    requires Inv(s) && k < |s.table.slots|
    ensures s.table.slots[k].state.Open? <==> Accepting(s, k)
  {
    LeaderAgrees(s, k);
    OriginalsMeasured(s, k);
  }

  lemma {:induction false} KeyOfLeader(s: System, k: nat, r: Req)
    requires Inv(s) && k < |s.table.slots| && r.submitted.Some?
    ensures LedByOneLike(s, k, r) <==> s.table.slots[k].key == CoalescingKey(r)
  {
    LeaderAgrees(s, k);
    MembersUnderKey(s, k);
  }

  lemma {:induction false} OpenUnderIff(s: System, k: nat, r: Req)
    requires Inv(s) && r.submitted.Some?
    ensures OpenUnder(s.table, CoalescingKey(r), k) <==> Accepting(s, k) && LedByOneLike(s, k, r)
  {
    if k < |s.table.slots| {
      OpenIffAccepting(s, k);
      KeyOfLeader(s, k, r);
    }
  }

  /** Request `i` becomes the last member of slot `k`, which stays as it is otherwise. */
  predicate Joins(s: System, t: System, i: nat, k: nat)
    requires i < |s.reqs| && s.reqs[i].submitted.Some? && k < |s.table.slots|
  {
    && i < |t.reqs| && |t.table.slots| == |s.table.slots|
    && t.reqs[i].pc == Watching && t.reqs[i].role == Coalesced(k, |s.table.slots[k].members|)
    && t.table.slots[k].members == s.table.slots[k].members + [Original(s, i)]
  }

  /** Request `i` leads a new slot and is its only member. */
  predicate OpensOwn(s: System, t: System, i: nat)
    requires i < |s.reqs| && s.reqs[i].submitted.Some?
  {
    && i < |t.reqs| && |t.table.slots| == |s.table.slots| + 1
    && t.reqs[i].pc == Entering && t.reqs[i].role == Coalesced(|s.table.slots|, 0)
    && t.table.slots[|s.table.slots|].members == [Original(s, i)]
  }

  /** In every run, a slot is open exactly while its leader has not closed it and the lengths measured for what its
      members submitted are below the limit together. */
  lemma {:induction false} OpenWhileAccepting(c: Config, now: Time, acts: seq<Action>, k: nat)
    requires Configured(c) && Allows(Init(c, now), acts) && k < |Run(Init(c, now), acts).table.slots|
    ensures var s := Run(Init(c, now), acts); s.table.slots[k].state.Open? <==> Accepting(s, k)
  {
    Reached(c, now, acts);
    OpenIffAccepting(Run(Init(c, now), acts), k);
  }

  /** From `s` to `t`, request `i` joins the accepting slot whose leader has its provider and queue key, at the next
      place, and opens none; it opens one of its own only if there is no such slot. */
  ghost predicate Shares(s: System, t: System, i: nat)
    requires i < |s.reqs| && s.reqs[i].submitted.Some?
  {
    && (forall k: nat :: Accepting(s, k) && LedByOneLike(s, k, s.reqs[i]) ==> Joins(s, t, i, k))
    && ((forall k: nat :: !(Accepting(s, k) && LedByOneLike(s, k, s.reqs[i]))) ==> OpensOwn(s, t, i))
  }

  lemma {:induction false} JoinsOrOpens(s: System, i: nat)
    requires Inv(s) && i < |s.reqs| && Can(s, s.reqs[i], JoinQueue)
    ensures Shares(s, DoJoinQueue(s, i), i)
  {
    forall k: nat
      ensures OpenUnder(s.table, CoalescingKey(s.reqs[i]), k) <==> Accepting(s, k) && LedByOneLike(s, k, s.reqs[i])
    {
      OpenUnderIff(s, k, s.reqs[i]);
    }
    JoinsIffOpen(s.table, CoalescingKey(s.reqs[i]), Original(s, i), s.config.limit);
  }

  /** In every run, a request that reaches the table shares the call of a slot wherever it can. */
  lemma {:induction false} SharesWheneverItCan(c: Config, now: Time, acts: seq<Action>, i: nat)
    requires Configured(c) && Allows(Init(c, now), acts)
    requires i < |Run(Init(c, now), acts).reqs|
    requires Enabled(Run(Init(c, now), acts), Act(i, JoinQueue))
    ensures var s := Run(Init(c, now), acts);
            s.reqs[i].submitted.Some? && Shares(s, Next(s, Act(i, JoinQueue)), i)
  {
    Reached(c, now, acts);
    JoinsOrOpens(Run(Init(c, now), acts), i);
  }
}
