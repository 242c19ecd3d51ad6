/** The cross-process lane of aalp/file_lane.py: lock slots shared by independent processes, on values. */
module FileLocks {
  import opened Basics

  /** A FileLease object in some process. `fh` is its lock's file handle while that is held. */
  datatype Holding = Holding(process: nat, slot: nat, fh: Option<nat>)

  /** `holder` is the operating system's table: the handle that has each lock file locked.
      `owner` says which process opened a handle; `leases` lists every lease object ever made. */
  datatype World = World(
    capacity: nat,
    holder: map<nat, nat>,
    owner: seq<nat>,
    leases: seq<Holding>,
    dead: set<nat>)

  datatype Event =
    | Probe(process: nat, slot: nat)   // one non-blocking attempt on one slot
    | Release(lease: nat)              // FileLease.release by the process that made it
    | Crash(process: nat)

  function Start(capacity: nat): World {
    World(capacity, map[], [], [], {})
  }

  predicate Alive(w: World, lease: nat)
    requires lease < |w.leases|
  {
    w.leases[lease].fh.Some? && w.leases[lease].process !in w.dead
  }

  predicate Possible(w: World, e: Event) {
    match e
    case Probe(p, slot) => p !in w.dead && slot < w.capacity
    case Release(l) => l < |w.leases| && w.leases[l].process !in w.dead
    case Crash(p) => p !in w.dead
  }

  predicate OwnedBy(w: World, slot: nat, p: nat) {
    slot in w.holder && w.holder[slot] < |w.owner| && w.owner[w.holder[slot]] == p
  }

  /** Every probe opens a handle; only a successful one keeps it and yields a lease. Unlocking and closing a handle
      frees the file only if that handle has it locked. A crash closes every handle of the process. */
  function After(w: World, e: Event): World
    requires Possible(w, e)
  {
    match e
    case Probe(p, slot) =>
      var fh := |w.owner|;
      if slot in w.holder then w.(owner := w.owner + [p])
      else w.(owner := w.owner + [p], holder := w.holder[slot := fh], leases := w.leases + [Holding(p, slot, Some(fh))])
    case Release(l) =>
      var lease := w.leases[l];
      if lease.fh.None? then w
      else
        w.(leases := w.leases[l := lease.(fh := None)],
           holder := map s | s in w.holder && w.holder[s] != lease.fh.value :: w.holder[s])
    case Crash(p) =>
      w.(dead := w.dead + {p}, holder := map s | s in w.holder && !OwnedBy(w, s, p) :: w.holder[s])
  }

  predicate LeaseOk(w: World, l: nat)
    requires l < |w.leases|
  {
    var lease := w.leases[l];
    && lease.slot < w.capacity
    && (lease.fh.Some? ==> lease.fh.value < |w.owner| && w.owner[lease.fh.value] == lease.process)
    && (Alive(w, l) ==> lease.slot in w.holder && w.holder[lease.slot] == lease.fh.value)
  }

  predicate Backs(w: World, l: nat, slot: nat) {
    l < |w.leases| && Alive(w, l) && w.leases[l].slot == slot
  }

  /** The table is exactly what the live leases hold. */
  ghost predicate Valid(w: World) {
    && (forall l :: 0 <= l < |w.leases| ==> LeaseOk(w, l))
    && (forall l, m :: 0 <= l < m < |w.leases| && w.leases[l].fh.Some? ==> w.leases[l].fh != w.leases[m].fh)
    && (forall s :: s in w.holder ==> s < w.capacity && w.holder[s] < |w.owner|)
    && (forall s :: s in w.holder ==> exists l: nat :: Backs(w, l, s))
  }

  lemma {:induction false} ProbeKeepsValid(w: World, p: nat, slot: nat)
    requires Valid(w) && Possible(w, Probe(p, slot))
    ensures Valid(After(w, Probe(p, slot)))
  {
    var v := After(w, Probe(p, slot));
    forall l | 0 <= l < |v.leases|
      ensures LeaseOk(v, l)
    {
      if l < |w.leases| {
        assert LeaseOk(w, l);
        assert Alive(v, l) == Alive(w, l);
      }
    }
    forall l, m | 0 <= l < m < |v.leases| && v.leases[l].fh.Some?
      ensures v.leases[l].fh != v.leases[m].fh
    {
      assert LeaseOk(w, l);
    }
    forall s | s in v.holder
      ensures exists l: nat :: Backs(v, l, s)
    {
      if s in w.holder {
        var l: nat :| Backs(w, l, s);
        assert Backs(v, l, s);
      } else {
        assert Backs(v, |w.leases|, s);
      }
    }
  }

  lemma {:induction false} ReleaseKeepsValid(w: World, j: nat)
    requires Valid(w) && Possible(w, Release(j))
    ensures Valid(After(w, Release(j)))
  {
    var v := After(w, Release(j));
    if v != w {
      forall l | 0 <= l < |v.leases|
        ensures LeaseOk(v, l)
      {
        assert LeaseOk(w, l) && LeaseOk(w, j);
      }
      forall s | s in v.holder
        ensures exists l: nat :: Backs(v, l, s)
      {
        var l: nat :| Backs(w, l, s);
        assert LeaseOk(w, l) && LeaseOk(w, j);
        assert Backs(v, l, s);
      }
    }
  }

  lemma {:induction false} CrashKeepsValid(w: World, p: nat)
    requires Valid(w) && Possible(w, Crash(p))
    ensures Valid(After(w, Crash(p)))
  {
    var v := After(w, Crash(p));
    forall l | 0 <= l < |v.leases|
      ensures LeaseOk(v, l)
    {
      assert LeaseOk(w, l);
    }
    forall s | s in v.holder
      ensures exists l: nat :: Backs(v, l, s)
    {
      var l: nat :| Backs(w, l, s);
      assert LeaseOk(w, l);
      assert Backs(v, l, s);
    }
  }

  // ----- Runs -----

  predicate Allows(w: World, events: seq<Event>)
    decreases |events|
  {
    events == [] || (Possible(w, events[0]) && Allows(After(w, events[0]), events[1..]))
  }

  function Run(w: World, events: seq<Event>): World
    requires Allows(w, events)
    decreases |events|
  {
    if events == [] then w else Run(After(w, events[0]), events[1..])
  }

  lemma {:induction false} RunKeepsValid(w: World, events: seq<Event>)
    requires Valid(w) && Allows(w, events)
    ensures Valid(Run(w, events)) && Run(w, events).capacity == w.capacity
    decreases |events|
  {
    if events != [] {
      match events[0] {
        case Probe(p, slot) => ProbeKeepsValid(w, p, slot);
        case Release(l) => ReleaseKeepsValid(w, l);
        case Crash(p) => CrashKeepsValid(w, p);
      }
      RunKeepsValid(After(w, events[0]), events[1..]);
    }
  }

  lemma {:induction false} RunsJoin(w: World, first: seq<Event>, second: seq<Event>)
    requires Allows(w, first) && Allows(Run(w, first), second)
    ensures Allows(w, first + second) && Run(w, first + second) == Run(Run(w, first), second)
    decreases |first|
  {
    if first == [] {
      assert first + second == second;
    } else {
      assert (first + second)[1..] == first[1..] + second;
      RunsJoin(After(w, first[0]), first[1..], second);
    }
  }

  lemma {:induction false} OneMoreEvent(w: World, events: seq<Event>, e: Event)
    requires Allows(w, events) && Possible(Run(w, events), e)
    ensures Allows(w, events + [e]) && Run(w, events + [e]) == After(Run(w, events), e)
  {
    assert [e][1..] == [];
    RunsJoin(w, events, [e]);
  }

  /** In every run of probes, releases and crashes, live leases hold distinct slots below the capacity,
      so there are never more of them than slots. */
  lemma {:induction false} SlotsAreExclusive(capacity: nat, events: seq<Event>)
    requires Allows(Start(capacity), events)
    ensures var w := Run(Start(capacity), events);
            && (forall l: nat, m: nat, s :: Backs(w, l, s) && Backs(w, m, s) ==> l == m)
            && |set l | 0 <= l < |w.leases| && Alive(w, l)| <= capacity
            && (forall s :: s in w.holder <==> exists l: nat :: Backs(w, l, s))
  {
    RunKeepsValid(Start(capacity), events);
    var w := Run(Start(capacity), events);
    forall l: nat, m: nat, s | Backs(w, l, s) && Backs(w, m, s)
      ensures l == m
    {
      assert LeaseOk(w, l) && LeaseOk(w, m);
    }
    var live := set l | 0 <= l < |w.leases| && Alive(w, l);
    var slots := UpTo(capacity);
    UpToCounts(capacity);
    var slotOf := (l: int) => if 0 <= l < |w.leases| then w.leases[l].slot else 0;
    forall l | l in live
      ensures slotOf(l) in slots
    {
      assert LeaseOk(w, l);
    }
    forall l, m | l in live && m in live && slotOf(l) == slotOf(m)
      ensures l == m
    {
      assert Backs(w, l, slotOf(l)) && Backs(w, m, slotOf(l));
    }
    InjectiveImageCardinality(live, slotOf, slots);
    forall s | exists l: nat :: Backs(w, l, s)
      ensures s in w.holder
    {
      var l: nat :| Backs(w, l, s);
      assert LeaseOk(w, l);
    }
  }

  /** A crash frees exactly the slots the crashed process had, at once. */
  lemma {:induction false} CrashFreesItsOwn(w: World, p: nat)
    requires Valid(w) && Possible(w, Crash(p))
    ensures var v := After(w, Crash(p));
            && (forall s :: s in v.holder <==> s in w.holder && !OwnedBy(w, s, p))
            && (forall s :: s in v.holder ==> v.holder[s] == w.holder[s])
            && (forall s :: OwnedBy(w, s, p) <==>
                  exists l: nat :: Backs(w, l, s) && w.leases[l].process == p)
  {
    forall s | OwnedBy(w, s, p)
      ensures exists l: nat :: Backs(w, l, s) && w.leases[l].process == p
    {
      var l: nat :| Backs(w, l, s);
      assert LeaseOk(w, l);
    }
    forall s, l: nat | Backs(w, l, s) && w.leases[l].process == p
      ensures OwnedBy(w, s, p)
    {
      assert LeaseOk(w, l);
    }
  }

  /** A first release frees the lease's slot and no other. */
  lemma {:induction false} ReleaseFreesItsSlot(w: World, l: nat)
    requires Valid(w) && Possible(w, Release(l)) && Alive(w, l)
    ensures After(w, Release(l)).holder == w.holder - {w.leases[l].slot}
  {
    assert LeaseOk(w, l);
    forall s | s in w.holder && w.holder[s] == w.leases[l].fh.value
      ensures s == w.leases[l].slot
    {
      var m: nat :| Backs(w, m, s);
      assert LeaseOk(w, m);
    }
  }

  /** Once released, a lease stays released, and releasing it again changes nothing,
      whoever has taken its slot in the meantime. */
  lemma {:induction false} SecondReleaseIsHarmless(w: World, l: nat, events: seq<Event>)
    requires l < |w.leases| && w.leases[l].fh.None? && Allows(w, events)
    ensures var v := Run(w, events);
            && l < |v.leases| && v.leases[l] == w.leases[l]
            && (Possible(v, Release(l)) ==> After(v, Release(l)) == v)
    decreases |events|
  {
    if events != [] {
      SecondReleaseIsHarmless(After(w, events[0]), l, events[1..]);
    }
  }

  function Actor(w: World, e: Event): nat
    requires Possible(w, e)
  {
    match e
    case Probe(p, _) => p
    case Release(l) => w.leases[l].process
    case Crash(p) => p
  }

  predicate Without(w: World, events: seq<Event>, p: nat)
    decreases |events|
  {
    events == [] || (Possible(w, events[0]) && Actor(w, events[0]) != p && Without(After(w, events[0]), events[1..], p))
  }

  lemma {:induction false} WithoutAllows(w: World, events: seq<Event>, p: nat)
    requires Without(w, events, p)
    ensures Allows(w, events)
    decreases |events|
  {
    if events != [] {
      WithoutAllows(After(w, events[0]), events[1..], p);
    }
  }

  /** The slots a process holds, with their handles. */
  function Holds(w: World, p: nat): map<nat, nat> {
    map s | s in w.holder && OwnedBy(w, s, p) :: w.holder[s]
  }

  lemma {:induction false} OneOtherKeepsMine(w: World, e: Event, p: nat)
    requires Valid(w) && Possible(w, e) && Actor(w, e) != p
    ensures Valid(After(w, e))
    ensures var v := After(w, e);
            && |w.owner| <= |v.owner|
            && (forall s :: OwnedBy(w, s, p) ==> OwnedBy(v, s, p) && v.holder[s] == w.holder[s])
            && (forall s :: OwnedBy(v, s, p) ==> OwnedBy(w, s, p))
            && (forall l :: 0 <= l < |w.leases| && w.leases[l].process == p ==>
                  l < |v.leases| && v.leases[l] == w.leases[l])
            && (p in v.dead <==> p in w.dead) && v.capacity == w.capacity
  {
    match e
    case Probe(q, slot) => ProbeKeepsValid(w, q, slot);
    case Release(l) =>
      ReleaseKeepsValid(w, l);
      assert LeaseOk(w, l);
    case Crash(q) => CrashKeepsValid(w, q);
  }

  /** What all other processes together can do to the table while process `p` does nothing:
      the slots `p` holds stay its own under the same handles, it gains none, and its leases stay as they are. */
  lemma {:induction false} OthersKeepMine(w: World, events: seq<Event>, p: nat)
    requires Valid(w) && Without(w, events, p)
    ensures Allows(w, events)
    ensures var v := Run(w, events);
            && |w.owner| <= |v.owner|
            && (forall s :: OwnedBy(w, s, p) ==> OwnedBy(v, s, p) && v.holder[s] == w.holder[s])
            && (forall s :: OwnedBy(v, s, p) ==> OwnedBy(w, s, p))
            && (forall l :: 0 <= l < |w.leases| && w.leases[l].process == p ==>
                  l < |v.leases| && v.leases[l] == w.leases[l])
            && (p in v.dead <==> p in w.dead) && v.capacity == w.capacity
    decreases |events|
  {
    WithoutAllows(w, events, p);
    if events != [] {
      OneOtherKeepsMine(w, events[0], p);
      OthersKeepMine(After(w, events[0]), events[1..], p);
    }
  }

  // ----- What a process has tried -----

  /** A probe: the slot tried, and the lock table it met. */
  datatype Try = Try(slot: nat, found: map<nat, nat>)

  /** All probes of process `p` among the events, in order. */
  function Tries(w: World, events: seq<Event>, p: nat): seq<Try>
    requires Allows(w, events)
    decreases |events|
  {
    if events == [] then []
    else
      var mine := if events[0].Probe? && events[0].process == p then [Try(events[0].slot, w.holder)] else [];
      mine + Tries(After(w, events[0]), events[1..], p)
  }

  lemma {:induction false} TriesJoin(w: World, first: seq<Event>, second: seq<Event>, p: nat)
    requires Allows(w, first) && Allows(Run(w, first), second)
    ensures Allows(w, first + second)
    ensures Tries(w, first + second, p) == Tries(w, first, p) + Tries(Run(w, first), second, p)
    decreases |first|
  {
    if first == [] {
      assert first + second == second;
    } else {
      RunsJoin(w, first, second);
      var both := first + second;
      assert both[0] == first[0] && both[1..] == first[1..] + second;
      TriesJoin(After(w, first[0]), first[1..], second, p);
    }
  }

  lemma {:induction false} OneMoreTry(w: World, events: seq<Event>, e: Event, p: nat)
    requires Allows(w, events) && Possible(Run(w, events), e)
    ensures Allows(w, events + [e])
    ensures Tries(w, events + [e], p)
         == Tries(w, events, p) + if e.Probe? && e.process == p then [Try(e.slot, Run(w, events).holder)] else []
  {
    assert [e][1..] == [];
    assert Allows(Run(w, events), [e]);
    TriesJoin(w, events, [e], p);
  }

  /** What others do is no try of one's own. */
  lemma {:induction false} OthersTryNothing(w: World, events: seq<Event>, p: nat)
    requires Without(w, events, p)
    ensures Allows(w, events) && Tries(w, events, p) == []
    decreases |events|
  {
    if events != [] {
      OthersTryNothing(After(w, events[0]), events[1..], p);
    }
  }
}
