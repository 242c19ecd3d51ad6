/** What goes upstream for a generation: exactly what its members submitted. */
module GatewayBodies {
  import opened Basics
  import opened Splice
  import opened Queues
  import opened Gateway
  import opened GatewaySlots
  import opened GatewayTheorems

  /** The requests accepted into slot `k`. */
  function Accepted(s: System, k: nat): set<int> {
    set i | 0 <= i < |s.reqs| && s.reqs[i].role.Coalesced? && s.reqs[i].role.slot == k
  }

  function PlaceOf(s: System, i: int): int {
    if 0 <= i < |s.reqs| && s.reqs[i].role.Coalesced? then s.reqs[i].role.index else 0
  }

  function IdAt(s: System, k: nat, j: int): int {
    if k < |s.table.slots| && 0 <= j < |s.table.slots[k].members| then s.table.slots[k].members[j].id else 0
  }

  /** As many members as accepted requests. */
  lemma {:induction false} AcceptedCount(s: System, k: nat)
    requires Inv(s) && k < |s.table.slots|
    ensures |Accepted(s, k)| == |s.table.slots[k].members|
  {
    var n := |s.table.slots[k].members|;
    UpToCounts(n);
    forall i | i in Accepted(s, k)
      ensures PlaceOf(s, i) in UpTo(n) && IdAt(s, k, PlaceOf(s, i)) == i
    {
      assert RoleOk(s, i);
    }
    forall j | j in UpTo(n)
      ensures IdAt(s, k, j) in Accepted(s, k) && PlaceOf(s, IdAt(s, k, j)) == j
    {
      assert MemberOk(s, k, j);
    }
    InjectiveImageCardinality(Accepted(s, k), i => PlaceOf(s, i), UpTo(n));
    InjectiveImageCardinality(UpTo(n), j => IdAt(s, k, j), Accepted(s, k));
  }

  /** The original member at place `j` is the submission of the request that sits there. */
  lemma {:induction false} OriginalAt(s: System, i: nat, k: nat, j: nat)
    requires Inv(s) && i < |s.reqs| && s.reqs[i].role == Coalesced(k, j)
    ensures k < |s.table.slots| && j < |s.table.slots[k].members| && s.reqs[i].submitted.Some?
    ensures Originals(s, s.table.slots[k].members)[j] == Original(s, i)
  {
    assert RoleOk(s, i);
  }

  /** `train` holds `block` at its own place `j` among `blocks`, joined by the leader's separator,
      and ends right after the last separator with the formatted number of blocks. */
  predicate HoldsBlock(train: string, leader: Json, blocks: seq<Json>, j: nat, block: Json, fmt: Formatter) {
    && IsEnvelope(leader) && AllStrings(blocks) && j < |blocks|
    && Entry(leader, "member_join").Str? && Entry(leader, "count_template").Str? && block.Str?
    && var sep := Entry(leader, "member_join").s;
       var at, end := Offset(blocks, sep, j), Offset(blocks, sep, |blocks|);
       && at + |block.s| + |sep| <= end <= |train|
       && OccursAt(train, at, block.s)
       && OccursAt(train, end - |sep|, sep)
       && Some(train[end..]) == fmt(Entry(leader, "count_template").s, |blocks|)
  }

  lemma {:induction false} BuiltHoldsBlock(members: seq<Member>, fmt: Formatter, j: nat)
    requires Build(members, fmt).Body? && j < |members|
    ensures IsEnvelope(members[0].payload) && HaveBlocks(members)
    ensures var leader, blocks := members[0].payload, Blocks(members);
            && Train(leader, blocks, fmt).Some?
            && var train := Train(leader, blocks, fmt).value;
               && Carries(Build(members, fmt).tree, leader, train)
               && HoldsBlock(train, leader, blocks, j, Entry(members[j].payload, "member_block"), fmt)
  {
    BodyCarriesTheTrain(members, fmt);
    EveryBlockOnceInOrder(members, fmt, j);
  }

  /** The body sent for slot `k` as request `i`, its member number `j`, may see it. */
  ghost predicate CarriesSubmission(s: System, i: nat, k: nat, j: nat)
    requires k < |s.table.slots| && s.table.slots[k].sent != [] && i < |s.reqs|
  {
    var os := Originals(s, s.table.slots[k].members);
    && s.reqs[i].submitted.Some? && os != [] && HaveBlocks(os)
    && var mine, leader, blocks := s.reqs[i].submitted.value.payload, os[0].payload, Blocks(os);
       && Has(mine, "member_block") && j < |blocks| == |Accepted(s, k)|
       && blocks[j] == Entry(mine, "member_block")
       && IsEnvelope(leader) && Train(leader, blocks, s.config.fmt).Some?
       && var train := Train(leader, blocks, s.config.fmt).value;
          && Carries(s.table.slots[k].sent[0], leader, train)
          && HoldsBlock(train, leader, blocks, j, Entry(mine, "member_block"), s.config.fmt)
  }

  /** The envelope is the one that the leader, of the same provider and queue key, submitted. */
  ghost predicate LedBySubmitter(s: System, i: nat, k: nat)
    requires k < |s.table.slots| && s.table.slots[k].members != [] && i < |s.reqs|
  {
    var first := Originals(s, s.table.slots[k].members)[0];
    && s.reqs[i].submitted.Some?
    && first.id < |s.reqs| && s.reqs[first.id].role == Coalesced(k, 0)
    && s.reqs[first.id].provider == s.reqs[i].provider
    && s.reqs[first.id].submitted == Some(Submission(s.reqs[i].submitted.value.queueKey, first.payload, first.size))
  }

  lemma {:induction false} SentCarriesSubmission(s: System, i: nat, k: nat, j: nat)
    requires Inv(s) && k < |s.table.slots| && s.table.slots[k].sent != []
    requires i < |s.reqs| && s.reqs[i].role == Coalesced(k, j)
    ensures CarriesSubmission(s, i, k, j)
  {
    LeaderAgrees(s, k);
    AssemblesTheOriginals(s, k);
    AcceptedCount(s, k);
    OriginalAt(s, i, k, j);
    BuiltHoldsBlock(Originals(s, s.table.slots[k].members), s.config.fmt, j);
  }

  lemma {:induction false} LeaderSubmitted(s: System, i: nat, k: nat, j: nat)
    requires Inv(s) && k < |s.table.slots| && i < |s.reqs| && s.reqs[i].role == Coalesced(k, j)
    ensures s.table.slots[k].members != [] && LedBySubmitter(s, i, k)
  {
    LeaderAgrees(s, k);
    var lead := s.table.slots[k].members[0].id;
    OriginalAt(s, lead, k, 0);
    assert RoleOk(s, i) && RoleOk(s, lead);
  }

  /** In every run, the body a generation sent upstream carries, at the content path of what its leader submitted, the
      block that each accepted request itself submitted, once, at its own place, with as many blocks as there are
      accepted requests and that number at the end; beside the path it is the envelope the leader submitted. */
  lemma {:induction false} SentAsSubmitted(c: Config, now: Time, acts: seq<Action>, i: nat, k: nat, j: nat)
    requires Configured(c) && Allows(Init(c, now), acts)
    requires var s := Run(Init(c, now), acts);
             && k < |s.table.slots| && s.table.slots[k].sent != []
             && i < |s.reqs| && s.reqs[i].role == Coalesced(k, j)
    ensures var s := Run(Init(c, now), acts);
            && s.config == c && s.table.slots[k].members != []
            && CarriesSubmission(s, i, k, j) && LedBySubmitter(s, i, k)
  {
    Reached(c, now, acts);
    var s := Run(Init(c, now), acts);
    SentCarriesSubmission(s, i, k, j);
    LeaderSubmitted(s, i, k, j);
  }
}
