/** Queue generations: aalp/queue.py. */
module Queues {
  import opened Basics
  import opened Splice

  /** `id` is the logical request the member came from; `size` is the byte length the gateway measured for it. */
  datatype Member = Member(id: nat, payload: Json, size: nat)

  datatype GenState = Open | Ready | InFlight | Complete

  /** `count_template.format(member_count=n)`, or None where Python raises. */
  type Formatter = (string, nat) -> Option<string>

  // ----- Assembly -----

  /** Assembly succeeds, raises QueueEnvelopeError, or raises something its caller does not expect. */
  datatype Built = Body(tree: Json) | Rejected | Escapes

  predicate Has(payload: Json, name: string) {
    payload.Obj? && StrKey(name) in payload.fields
  }

  function Entry(payload: Json, name: string): Json
    requires Has(payload, name)
  {
    payload.fields[StrKey(name)]
  }

  predicate IsEnvelope(leader: Json) {
    Has(leader, "shared") && Has(leader, "content_path") && Has(leader, "member_join") && Has(leader, "count_template")
  }

  predicate HaveBlocks(members: seq<Member>) {
    forall i :: 0 <= i < |members| ==> Has(members[i].payload, "member_block")
  }

  function Blocks(members: seq<Member>): seq<Json>
    requires HaveBlocks(members)
  {
    seq(|members|, i requires 0 <= i < |members| => Entry(members[i].payload, "member_block"))
  }

  predicate AllStrings(blocks: seq<Json>) {
    forall i :: 0 <= i < |blocks| ==> blocks[i].Str?
  }

  function Join(blocks: seq<Json>, sep: string): string
    requires AllStrings(blocks)
  {
    if blocks == [] then ""
    else if |blocks| == 1 then blocks[0].s
    else blocks[0].s + sep + Join(blocks[1..], sep)
  }

  /** The joined member train, or None where str.join or str.format raises. */
  function Train(leader: Json, blocks: seq<Json>, fmt: Formatter): Option<string>
    requires IsEnvelope(leader)
  {
    var sep, template := Entry(leader, "member_join"), Entry(leader, "count_template");
    if !sep.Str? || !AllStrings(blocks) || !template.Str? then None
    else
      var count := fmt(template.s, |blocks|);
      if count.None? then None else Some(Join(blocks, sep.s) + sep.s + count.value)
  }

  function Build(members: seq<Member>, fmt: Formatter): Built {
    if members == [] || !IsEnvelope(members[0].payload) || !HaveBlocks(members) then Rejected
    else
      var leader := members[0].payload;
      var train := Train(leader, Blocks(members), fmt);
      if train.None? then Escapes
      else
        var tree := DeepSetTo(Entry(leader, "shared"), Entry(leader, "content_path"), Str(train.value));
        if tree.None? then Rejected else Body(tree.value)
  }

  /** Assembly works on the leader's own payload, so it leaves the spliced tree behind in it. */
  function AfterBuild(members: seq<Member>, fmt: Formatter): seq<Member> {
    var built := Build(members, fmt);
    if !built.Body? then members
    else
      var leader := members[0];
      members[0 := leader.(payload := Obj(leader.payload.fields[StrKey("shared") := built.tree]))]
  }

  /** Equal, or equal but for the entry that assembly splices into. */
  predicate SameButShared(a: Json, b: Json) {
    || a == b
    || (a.Obj? && b.Obj? && a.fields.Keys == b.fields.Keys
        && forall k :: k in a.fields && k != StrKey("shared") ==> a.fields[k] == b.fields[k])
  }

  /** Assembly keeps every member's identity, size and block, and touches one entry of one payload at most. */
  lemma {:induction false} AssemblyKeepsSubmissions(members: seq<Member>, fmt: Formatter, j: nat)
    requires j < |members|
    ensures |AfterBuild(members, fmt)| == |members|
    ensures var m, m' := members[j], AfterBuild(members, fmt)[j];
            && m'.id == m.id && m'.size == m.size && (j > 0 ==> m' == m)
            && SameButShared(m.payload, m'.payload)
            && (Has(m.payload, "member_block") <==> Has(m'.payload, "member_block"))
            && (Has(m.payload, "member_block") ==>
                  Entry(m'.payload, "member_block") == Entry(m.payload, "member_block"))
            && (j == 0 && Build(members, fmt).Body? ==>
                  Has(m'.payload, "shared") && Entry(m'.payload, "shared") == Build(members, fmt).tree)
  {
    assert "member_block" != "shared" by { assert |"member_block"| != |"shared"|; }
  }

  /** Assembling again yields the same body and changes nothing more. */
  lemma {:induction false} RebuildIsIdempotent(members: seq<Member>, fmt: Formatter)
    ensures Build(AfterBuild(members, fmt), fmt) == Build(members, fmt)
    ensures AfterBuild(AfterBuild(members, fmt), fmt) == AfterBuild(members, fmt)
  {
    if Build(members, fmt).Body? {
      var again := AfterBuild(members, fmt);
      var before, after := members[0].payload, again[0].payload;
      forall name | name != "shared"
        ensures Has(after, name) <==> Has(before, name)
        ensures Has(before, name) ==> Entry(after, name) == Entry(before, name)
      {
        assert StrKey(name) != StrKey("shared");
      }
      forall i | 0 <= i < |members|
        ensures Has(again[i].payload, "member_block")
        ensures Entry(again[i].payload, "member_block") == Entry(members[i].payload, "member_block")
      {
        assert "member_block" != "shared" by { assert |"member_block"| != |"shared"|; }
      }
      assert Blocks(again) == Blocks(members);
      assert "content_path" != "shared" && "member_join" != "shared" && "count_template" != "shared" by {
        assert |"content_path"| != |"shared"| && |"member_join"| != |"shared"| && |"count_template"| != |"shared"|;
      }
      var train := Str(Train(before, Blocks(members), fmt).value);
      var steps := StepsOf(Entry(before, "content_path")).value;
      SetThenSet(Entry(before, "shared"), steps, train, train);
      assert again[0].payload.fields[StrKey("shared") := Build(members, fmt).tree] == again[0].payload.fields;
    }
  }

  /** `tree` has `train` where the leader's content path points to, and is the leader's envelope beside it. */
  ghost predicate Carries(tree: Json, leader: Json, train: string) {
    && IsEnvelope(leader)
    && var shared, path := Entry(leader, "shared"), Entry(leader, "content_path");
       && (exists here :: Points(shared, path, here))
       && (forall here :: Points(shared, path, here) ==> Lands(shared, tree, here, Str(train)))
  }

  /** What the upstream sees at `content_path`, and nowhere else: the train of these members. */
  lemma {:induction false} BodyCarriesTheTrain(members: seq<Member>, fmt: Formatter)
    requires Build(members, fmt).Body?
    ensures members != [] && IsEnvelope(members[0].payload) && HaveBlocks(members)
    ensures var leader := members[0].payload;
            var train := Train(leader, Blocks(members), fmt);
            train.Some? && Carries(Build(members, fmt).tree, leader, train.value)
  {
    var leader := members[0].payload;
    var train := Str(Train(leader, Blocks(members), fmt).value);
    LandsWhereItPoints(Entry(leader, "shared"), Entry(leader, "content_path"), train);
  }

  /** The parts can be joined and the count formatted. */
  predicate CanJoin(members: seq<Member>, fmt: Formatter)
    requires members != [] && IsEnvelope(members[0].payload) && HaveBlocks(members)
  {
    var leader := members[0].payload;
    && Entry(leader, "member_join").Str? && Entry(leader, "count_template").Str?
    && (forall i :: 0 <= i < |members| ==> Entry(members[i].payload, "member_block").Str?)
    && fmt(Entry(leader, "count_template").s, |members|).Some?
  }

  /** Assembly yields a body exactly if the leader's envelope is complete, every member has a block, the parts can be
      joined and the count formatted, and the content path points into the leader's envelope. It raises what its
      caller does not expect exactly if joining or formatting does, and is rejected in all other cases. */
  lemma {:induction false} BuildsExactlyIf(members: seq<Member>, fmt: Formatter)
    ensures var complete := members != [] && IsEnvelope(members[0].payload) && HaveBlocks(members);
            var built := Build(members, fmt);
            && (built.Body? <==>
                  && complete && CanJoin(members, fmt)
                  && exists here :: Points(Entry(members[0].payload, "shared"),
                                           Entry(members[0].payload, "content_path"), here))
            && (built.Escapes? <==> complete && !CanJoin(members, fmt))
  {
    if members != [] && IsEnvelope(members[0].payload) && HaveBlocks(members) {
      var leader, blocks := members[0].payload, Blocks(members);
      assert forall i :: 0 <= i < |members| ==> blocks[i] == Entry(members[i].payload, "member_block");
      assert AllStrings(blocks) <==> forall i :: 0 <= i < |blocks| ==> blocks[i].Str?;
      var train := Train(leader, blocks, fmt);
      if train.Some? {
        LandsWhereItPoints(Entry(leader, "shared"), Entry(leader, "content_path"), Str(train.value));
      }
    }
  }

  // ----- Where each block sits in the train -----

  function Offset(blocks: seq<Json>, sep: string, j: nat): nat
    requires AllStrings(blocks) && j <= |blocks|
  {
    if j == 0 then 0 else |blocks[0].s| + |sep| + Offset(blocks[1..], sep, j - 1)
  }

  lemma {:induction false} JoinLength(blocks: seq<Json>, sep: string)
    requires AllStrings(blocks) && blocks != []
    ensures |Join(blocks, sep)| + |sep| == Offset(blocks, sep, |blocks|)
    decreases |blocks|
  {
    if |blocks| == 1 {
      assert Offset(blocks[1..], sep, 0) == 0;
    } else {
      JoinLength(blocks[1..], sep);
    }
  }

  predicate OccursAt(text: string, at: nat, piece: string) {
    at + |piece| <= |text| && text[at..at + |piece|] == piece
  }

  lemma OccursFurther(text: string, tail: string, skip: nat, at: nat, piece: string)
    requires skip <= |text| && text[skip..] == tail && OccursAt(tail, at, piece)
    ensures OccursAt(text, skip + at, piece)
  {
    assert text[skip + at..skip + at + |piece|] == text[skip..][at..at + |piece|];
  }

  /** Block `j` is found verbatim after the `j` blocks before it and their separators, and a separator follows
      unless it is the last; by JoinLength the joined text has room for nothing else. */
  lemma {:induction false} JoinKeepsEveryBlock(blocks: seq<Json>, sep: string, j: nat)
    requires AllStrings(blocks) && j < |blocks|
    ensures var at := Offset(blocks, sep, j);
            && OccursAt(Join(blocks, sep), at, blocks[j].s)
            && (j + 1 < |blocks| ==> OccursAt(Join(blocks, sep), at + |blocks[j].s|, sep))
    decreases |blocks|
  {
    if |blocks| > 1 {
      var rest := blocks[1..];
      var joined, tail := Join(blocks, sep), Join(rest, sep);
      var skip := |blocks[0].s| + |sep|;
      assert joined[skip..] == tail;
      if j > 0 {
        JoinKeepsEveryBlock(rest, sep, j - 1);
        var at := Offset(rest, sep, j - 1);
        OccursFurther(joined, tail, skip, at, blocks[j].s);
        if j + 1 < |blocks| {
          OccursFurther(joined, tail, skip, at + |blocks[j].s|, sep);
        }
      }
    }
  }

  /** The train of an assembled body holds each member's own block once, in append order,
      then the separator and the formatted member count, and nothing else. */
  lemma {:induction false} EveryBlockOnceInOrder(members: seq<Member>, fmt: Formatter, j: nat)
    requires Build(members, fmt).Body? && j < |members|
    ensures IsEnvelope(members[0].payload) && HaveBlocks(members)
    ensures var leader, blocks := members[0].payload, Blocks(members);
            && Entry(leader, "member_join").Str? && AllStrings(blocks) && Entry(leader, "count_template").Str?
            && var sep, train := Entry(leader, "member_join").s, Train(leader, blocks, fmt).value;
               var at, end := Offset(blocks, sep, j), Offset(blocks, sep, |blocks|);
               var block := blocks[j].s;
               && blocks[j] == Entry(members[j].payload, "member_block")
               && at + |block| + |sep| <= end <= |train|
               && OccursAt(train, at, block)
               && OccursAt(train, end - |sep|, sep)
               && Some(train[end..]) == fmt(Entry(leader, "count_template").s, |members|)
  {
    var leader, blocks := members[0].payload, Blocks(members);
    var sep, train := Entry(leader, "member_join").s, Train(leader, blocks, fmt).value;
    var joined := Join(blocks, sep);
    var at := Offset(blocks, sep, j);
    JoinKeepsEveryBlock(blocks, sep, j);
    JoinLength(blocks, sep);
    assert blocks[j] == Entry(members[j].payload, "member_block");
    assert train[at..at + |blocks[j].s|] == joined[at..at + |blocks[j].s|];
  }

  // ----- The generation object -----

  // Transitions: the state after the call, or None where QueueGenerationSealed is raised.

  function Sealed(s: GenState): Option<GenState> {
    if s.Open? then Some(Ready) else None
  }

  function Started(s: GenState): Option<GenState> {
    if s.Open? || s.Ready? then Some(InFlight) else None
  }

  function Completed(s: GenState): Option<GenState> {
    if s.InFlight? then Some(Complete) else None
  }

  /** The mutable generation. Methods that can raise return whether they did. */
  class QueueGeneration {
    const generationId: string
    const providerId: string
    const queueKey: string
    var members: seq<Member>
    var state: GenState

    constructor (generationId: string, providerId: string, queueKey: string)
      ensures this.generationId == generationId && this.providerId == providerId && this.queueKey == queueKey
      ensures members == [] && state == Open
    {
      this.generationId, this.providerId, this.queueKey := generationId, providerId, queueKey;
      members, state := [], Open;
    }

    method Append(member: Member) returns (raised: bool)
      modifies this`members
      ensures raised <==> state != Open
      ensures members == old(members) + (if raised then [] else [member])
    {
      if state != Open {
        return true;
      }
      members := members + [member];
      return false;
    }

    method Seal() returns (raised: bool)
      modifies this`state
      ensures raised <==> old(state) != Open
      ensures state == if raised then old(state) else Ready
      ensures Sealed(old(state)) == if raised then None else Some(state)
    {
      if state != Open {
        return true;
      }
      state := Ready;
      return false;
    }

    method MarkInFlight() returns (raised: bool)
      modifies this`state
      ensures raised <==> old(state) != Open && old(state) != Ready
      ensures state == if raised then old(state) else InFlight
      ensures Started(old(state)) == if raised then None else Some(state)
    {
      if state != Open && state != Ready {
        return true;
      }
      state := InFlight;
      return false;
    }

    method MarkDone() returns (raised: bool)
      modifies this`state
      ensures raised <==> old(state) != InFlight
      ensures state == if raised then old(state) else Complete
      ensures Completed(old(state)) == if raised then None else Some(state)
    {
      if state != InFlight {
        return true;
      }
      state := Complete;
      return false;
    }

    /** Collects the blocks, joins them and splices the train into the leader's payload. */
    method BuildPhysicalBody(fmt: Formatter) returns (built: Built)
      modifies this`members
      ensures built == Build(old(members), fmt)
      ensures members == AfterBuild(old(members), fmt)
    {
      if members == [] || !IsEnvelope(members[0].payload) {
        return Rejected;
      }
      var leader := members[0].payload;
      var blocks: seq<Json> := [];
      var i := 0;
      while i < |members|
        invariant 0 <= i <= |members|
        invariant HaveBlocks(members[..i])
        invariant blocks == Blocks(members[..i])
        invariant members == old(members)
      {
        if !Has(members[i].payload, "member_block") {
          return Rejected;
        }
        blocks := blocks + [Entry(members[i].payload, "member_block")];
        i := i + 1;
      }
      assert members[..i] == members;
      var train := Train(leader, blocks, fmt);
      if train.None? {
        return Escapes;
      }
      var ok, tree := DeepSet(Entry(leader, "shared"), Entry(leader, "content_path"), Str(train.value));
      if !ok {
        return Rejected;
      }
      members := members[0 := members[0].(payload := Obj(leader.fields[StrKey("shared") := tree]))];
      return Body(tree);
    }
  }
}
