/** Parsed JSON trees and the path assignment of aalp/queue.py, `_deep_set`. */
module Splice {
  import opened Basics

  /** Keys a Python dictionary tells apart: `True`, `1` and `1.0` are one key. */
  datatype Key = NullKey | NumKey(n: real) | StrKey(s: string)

  datatype Json =
    | Null
    | Bool(b: bool)
    | Int(i: int)
    | Real(r: real)
    | Str(s: string)
    | Arr(items: seq<Json>)
    | Obj(fields: map<Key, Json>)

  /** A subscript as a dictionary key; lists and dictionaries are not hashable. */
  function KeyOf(k: Json): Option<Key> {
    match k
    case Null => Some(NullKey)
    case Bool(b) => Some(NumKey(if b then 1.0 else 0.0))
    case Int(i) => Some(NumKey(i as real))
    case Real(r) => Some(NumKey(r))
    case Str(s) => Some(StrKey(s))
    case _ => None
  }

  /** A subscript as a position in a sequence of length `n`; negative ones count from the end. */
  function IndexOf(k: Json, n: int): (r: Option<int>)
    ensures r.Some? ==> 0 <= r.value < n
    ensures k.Int? ==> (r.Some? <==> -n <= k.i < n) && (r.Some? ==> r.value == k.i || r.value == k.i + n)
  {
    var i := if k.Int? then k.i else if k == Bool(true) then 1 else 0;
    if !k.Int? && !k.Bool? then None
    else if 0 <= i < n then Some(i)
    else if -n <= i < 0 then Some(n + i)
    else None
  }

  /** `obj[k]`, or None where Python raises. */
  function Subscript(obj: Json, k: Json): Option<Json> {
    match obj
    case Arr(items) =>
      var i := IndexOf(k, |items|);
      if i.Some? then Some(items[i.value]) else None
    case Str(s) =>
      var i := IndexOf(k, |s|);
      if i.Some? then Some(Str([s[i.value]])) else None
    case Obj(fields) =>
      var f := KeyOf(k);
      if f.Some? && f.value in fields then Some(fields[f.value]) else None
    case _ => None
  }

  /** `obj[k] = v`, or None where Python raises. */
  function Assign(obj: Json, k: Json, v: Json): Option<Json> {
    match obj
    case Arr(items) =>
      var i := IndexOf(k, |items|);
      if i.Some? then Some(Arr(items[i.value := v])) else None
    case Obj(fields) =>
      var f := KeyOf(k);
      if f.Some? then Some(Obj(fields[f.value := v])) else None
    case _ => None
  }

  function GetAt(obj: Json, path: seq<Json>): Option<Json>
    decreases |path|
  {
    if path == [] then Some(obj)
    else
      var child := Subscript(obj, path[0]);
      if child.None? then None else GetAt(child.value, path[1..])
  }

  function SetAt(obj: Json, path: seq<Json>, v: Json): Option<Json>
    requires path != []
    decreases |path|
  {
    if |path| == 1 then Assign(obj, path[0], v)
    else
      var child := Subscript(obj, path[0]);
      if child.None? then None
      else
        var set' := SetAt(child.value, path[1..], v);
        if set'.None? then None else Assign(obj, path[0], set'.value)
  }

  // ----- Locations -----

  /** One step to a child, whatever subscript named it. */
  datatype Step = At(index: nat) | Field(key: Key)

  function StepOf(obj: Json, k: Json): Option<Step> {
    match obj
    case Arr(items) => var i := IndexOf(k, |items|); if i.Some? then Some(At(i.value)) else None
    case Obj(_) => var f := KeyOf(k); if f.Some? then Some(Field(f.value)) else None
    case _ => None
  }

  function ChildAt(obj: Json, step: Step): Option<Json> {
    if obj.Arr? && step.At? && step.index < |obj.items| then Some(obj.items[step.index])
    else if obj.Obj? && step.Field? && step.key in obj.fields then Some(obj.fields[step.key])
    else None
  }

  function ReadAt(obj: Json, loc: seq<Step>): Option<Json> {
    if loc == [] then Some(obj)
    else
      var child := ChildAt(obj, loc[0]);
      if child.None? then None else ReadAt(child.value, loc[1..])
  }

  /** The location a path names: subscripts normalised one container at a time. */
  function Locate(obj: Json, path: seq<Json>): Option<seq<Step>>
    decreases |path|
  {
    if path == [] then Some([])
    else
      var step, child := StepOf(obj, path[0]), Subscript(obj, path[0]);
      if step.None? then None
      else if |path| == 1 then Some([step.value])
      else if child.None? then None
      else
        var rest := Locate(child.value, path[1..]);
        if rest.None? then None else Some([step.value] + rest.value)
  }

  /** Everything a container says about itself rather than about one child. */
  predicate SameShell(a: Json, b: Json) {
    || (a.Arr? && b.Arr? && |a.items| == |b.items|)
    || (a.Obj? && b.Obj? && a.fields.Keys <= b.fields.Keys)
  }

  // ----- Lens laws -----

  lemma {:induction false} AssignThenSubscript(obj: Json, k: Json, v: Json, w: Json)
    requires Assign(obj, k, v).Some?
    ensures Subscript(Assign(obj, k, v).value, k) == Some(v)
    ensures Assign(Assign(obj, k, v).value, k, w) == Assign(obj, k, w)
  {
    if obj.Arr? {
      var i := IndexOf(k, |obj.items|).value;
      assert obj.items[i := v][i := w] == obj.items[i := w];
    } else {
      var f := KeyOf(k).value;
      assert obj.fields[f := v][f := w] == obj.fields[f := w];
    }
  }

  /** Reading back what was set. */
  lemma {:induction false} SetThenGet(obj: Json, path: seq<Json>, v: Json)
    requires path != [] && SetAt(obj, path, v).Some?
    ensures GetAt(SetAt(obj, path, v).value, path) == Some(v)
    decreases |path|
  {
    if |path| == 1 {
      AssignThenSubscript(obj, path[0], v, v);
    } else {
      var child := Subscript(obj, path[0]).value;
      SetThenGet(child, path[1..], v);
      AssignThenSubscript(obj, path[0], SetAt(child, path[1..], v).value, v);
    }
  }

  lemma {:induction false} SettableWhateverTheValue(obj: Json, path: seq<Json>, v: Json, w: Json)
    requires path != []
    ensures SetAt(obj, path, v).Some? <==> SetAt(obj, path, w).Some?
    decreases |path|
  {
    if |path| > 1 && Subscript(obj, path[0]).Some? {
      SettableWhateverTheValue(Subscript(obj, path[0]).value, path[1..], v, w);
    }
  }

  /** A second set overwrites the first. */
  lemma {:induction false} SetThenSet(obj: Json, path: seq<Json>, v: Json, w: Json)
    requires path != [] && SetAt(obj, path, v).Some?
    ensures SetAt(SetAt(obj, path, v).value, path, w) == SetAt(obj, path, w)
    decreases |path|
  {
    if |path| == 1 {
      AssignThenSubscript(obj, path[0], v, w);
    } else {
      var child := Subscript(obj, path[0]).value;
      SetThenSet(child, path[1..], v, w);
      var c := SetAt(child, path[1..], v).value;
      AssignThenSubscript(obj, path[0], c, c);
      SettableWhateverTheValue(child, path[1..], v, w);
      AssignThenSubscript(obj, path[0], c, SetAt(child, path[1..], w).value);
    }
  }

  /** Setting what is already there changes nothing. */
  lemma {:induction false} GetThenSet(obj: Json, path: seq<Json>, v: Json)
    requires path != [] && GetAt(obj, path) == Some(v) && SetAt(obj, path, v).Some?
    ensures SetAt(obj, path, v) == Some(obj)
    decreases |path|
  {
    var child := Subscript(obj, path[0]).value;
    if |path| == 1 {
      assert GetAt(child, path[1..]) == Some(child);
    } else {
      GetThenSet(child, path[1..], v);
    }
    assert obj.Arr? ==> obj.items[IndexOf(path[0], |obj.items|).value := child] == obj.items;
    assert obj.Obj? ==> obj.fields[KeyOf(path[0]).value := child] == obj.fields;
  }

  /** The caller-side test for success: all containers but the last can be read,
      and the last one is a dictionary given a hashable key or a list given an index in range. */
  predicate Settable(obj: Json, path: seq<Json>)
    requires path != []
  {
    var parent := GetAt(obj, path[..|path| - 1]);
    parent.Some? && StepOf(parent.value, path[|path| - 1]).Some?
  }

  lemma {:induction false} StringsLeadToStrings(obj: Json, path: seq<Json>)
    requires obj.Str? && GetAt(obj, path).Some?
    ensures GetAt(obj, path).value.Str?
    decreases |path|
  {
    if path != [] {
      StringsLeadToStrings(Subscript(obj, path[0]).value, path[1..]);
    }
  }

  lemma {:induction false} StringsHaveNoSettableChild(obj: Json, path: seq<Json>)
    requires |path| > 1 && Subscript(obj, path[0]).Some? && Settable(Subscript(obj, path[0]).value, path[1..])
    ensures !obj.Str?
  {
    if obj.Str? {
      StringsLeadToStrings(Subscript(obj, path[0]).value, path[1..][..|path[1..]| - 1]);
    }
  }

  lemma {:induction false} SetSucceedsIffSettable(obj: Json, path: seq<Json>, v: Json)
    requires path != []
    ensures SetAt(obj, path, v).Some? <==> Settable(obj, path)
    decreases |path|
  {
    if |path| == 1 {
      assert path[..0] == [];
    } else {
      var child := Subscript(obj, path[0]);
      assert path[..|path| - 1][1..] == path[1..][..|path[1..]| - 1];
      if child.Some? {
        SetSucceedsIffSettable(child.value, path[1..], v);
        if Settable(child.value, path[1..]) {
          StringsHaveNoSettableChild(obj, path);
        }
      }
    }
  }

  /** What a change at `here` may do to the reading at `loc`: nothing beside it,
      and above it the container keeps its shape. */
  predicate Framed(before: Json, after: Json, here: seq<Step>, loc: seq<Step>) {
    && (!(here <= loc) && !(loc <= here) ==> ReadAt(after, loc) == ReadAt(before, loc))
    && (loc < here ==> ReadAt(before, loc).Some? && ReadAt(after, loc).Some?
                       && SameShell(ReadAt(before, loc).value, ReadAt(after, loc).value))
  }

  lemma {:induction false} ConsPrefix(step: Step, rest: seq<Step>, loc: seq<Step>)
    requires loc != []
    ensures [step] + rest <= loc <==> loc[0] == step && rest <= loc[1..]
    ensures loc <= [step] + rest <==> loc[0] == step && loc[1..] <= rest
  {
    assert loc == [loc[0]] + loc[1..];
    assert ([step] + rest)[0] == step && ([step] + rest)[1..] == rest;
  }

  lemma {:induction false} AssignLeavesSiblings(obj: Json, k: Json, v: Json, other: Step)
    requires Assign(obj, k, v).Some?
    ensures StepOf(obj, k).Some? && SameShell(obj, Assign(obj, k, v).value)
    ensures ChildAt(Assign(obj, k, v).value, StepOf(obj, k).value) == Some(v)
    ensures other != StepOf(obj, k).value ==> ChildAt(Assign(obj, k, v).value, other) == ChildAt(obj, other)
  {
  }

  /** A change below one child is a change below that child's step. */
  lemma {:induction false} FramedThrough(obj: Json, k: Json, v: Json, rest: seq<Step>, loc: seq<Step>)
    requires Subscript(obj, k).Some? && !obj.Str? && Assign(obj, k, v).Some?
    requires loc != [] ==> Framed(Subscript(obj, k).value, v, rest, loc[1..])
    ensures StepOf(obj, k).Some?
    ensures Framed(obj, Assign(obj, k, v).value, [StepOf(obj, k).value] + rest, loc)
  {
    if loc == [] {
      AssignLeavesSiblings(obj, k, v, At(0));
    } else {
      AssignLeavesSiblings(obj, k, v, loc[0]);
      ConsPrefix(StepOf(obj, k).value, rest, loc);
    }
  }

  lemma {:induction false} FramedHere(obj: Json, k: Json, v: Json, loc: seq<Step>)
    requires Assign(obj, k, v).Some?
    ensures StepOf(obj, k).Some? && Framed(obj, Assign(obj, k, v).value, [StepOf(obj, k).value], loc)
  {
    if loc == [] {
      AssignLeavesSiblings(obj, k, v, At(0));
    } else {
      AssignLeavesSiblings(obj, k, v, loc[0]);
    }
  }

  /** Nothing changes beside the path, and the containers on the way keep their shape. */
  lemma {:induction false} SetFrame(obj: Json, path: seq<Json>, v: Json, loc: seq<Step>)
    requires path != [] && SetAt(obj, path, v).Some?
    ensures Locate(obj, path).Some?
    ensures Framed(obj, SetAt(obj, path, v).value, Locate(obj, path).value, loc)
    decreases |path|
  {
    if |path| == 1 {
      FramedHere(obj, path[0], v, loc);
    } else {
      var child := Subscript(obj, path[0]).value;
      SetFrame(child, path[1..], v, if loc == [] then [] else loc[1..]);
      FramedThrough(obj, path[0], SetAt(child, path[1..], v).value, Locate(child, path[1..]).value, loc);
    }
  }

  // ----- The traversal loop -----

  /** The subscripts a `content_path` value stands for: a list's items, or a string's characters;
      None for what can be neither iterated nor sliced. */
  function StepsOf(path: Json): Option<seq<Json>> {
    match path
    case Arr(items) => Some(items)
    case Str(s) => Some(seq(|s|, i requires 0 <= i < |s| => Str([s[i]])))
    case _ => None
  }

  /** The meaning of `_deep_set`: the tree after it, or None where it raises QueueEnvelopeError. */
  function DeepSetTo(shared: Json, path: Json, value: Json): Option<Json> {
    var steps := StepsOf(path);
    if steps.None? || steps.value == [] then None else SetAt(shared, steps.value, value)
  }

  /** The tree as seen from its root once the container at `path` has been changed in place. */
  function Mutated(obj: Json, path: seq<Json>, container: Json): Option<Json> {
    if path == [] then Some(container) else SetAt(obj, path, container)
  }

  lemma {:induction false} AssignInPlace(obj: Json, path: seq<Json>, parent: Json, v: Json)
    requires path != [] && GetAt(obj, path[..|path| - 1]) == Some(parent)
    ensures SetAt(obj, path, v).Some? <==> Assign(parent, path[|path| - 1], v).Some?
    ensures Assign(parent, path[|path| - 1], v).Some? ==>
              SetAt(obj, path, v) == Mutated(obj, path[..|path| - 1], Assign(parent, path[|path| - 1], v).value)
    decreases |path|
  {
    if |path| == 1 {
      assert path[..0] == [];
    } else {
      var child := Subscript(obj, path[0]).value;
      assert path[..|path| - 1][1..] == path[1..][..|path[1..]| - 1];
      AssignInPlace(child, path[1..], parent, v);
      if Assign(parent, path[|path| - 1], v).Some? {
        SetSucceedsIffSettable(child, path[1..], v);
        StringsHaveNoSettableChild(obj, path);
      }
    }
  }

  lemma {:induction false} GetOneMore(obj: Json, path: seq<Json>, i: nat)
    requires i < |path| && GetAt(obj, path[..i]).Some?
    ensures GetAt(obj, path[..i + 1]) == Subscript(GetAt(obj, path[..i]).value, path[i])
    decreases i
  {
    if i > 0 {
      assert path[..i][1..] == path[1..][..i - 1];
      assert path[..i + 1][1..] == path[1..][..i];
      GetOneMore(Subscript(obj, path[0]).value, path[1..], i - 1);
    }
  }

  lemma {:induction false} DeadEnd(obj: Json, path: seq<Json>, i: nat, v: Json)
    requires i < |path| - 1 && GetAt(obj, path[..i + 1]).None?
    ensures SetAt(obj, path, v).None?
    decreases |path|
  {
    assert path[..i + 1][1..] == path[1..][..i];
    if i > 0 && Subscript(obj, path[0]).Some? {
      DeadEnd(Subscript(obj, path[0]).value, path[1..], i - 1, v);
    }
  }

  // ----- Where a content_path points, told without the traversal -----

  /** What Python iterates over in a path: the items of a list, the characters of a string. */
  predicate Spells(path: Json, items: seq<Json>) {
    || path == Arr(items)
    || (path.Str? && |items| == |path.s| && forall n :: 0 <= n < |items| ==> items[n] == Str([path.s[n]]))
  }

  /** Subscript `k` of this container stands for this step: in a dictionary the key itself, in a list the position,
      counted from the end where it is negative. */
  predicate Names(container: Json, k: Json, step: Step) {
    match container
    case Obj(_) =>
      (match k
       case Str(s) => step == Field(StrKey(s))
       case Int(i) => step == Field(NumKey(i as real))
       case Real(r) => step == Field(NumKey(r))
       case Bool(b) => step == Field(NumKey(if b then 1.0 else 0.0))
       case Null => step == Field(NullKey)
       case _ => false)
    case Arr(items) =>
      step.At? && step.index < |items|
      && (match k
          case Int(i) => step.index == i || step.index == |items| + i
          case Bool(b) => step.index == if b then 1 else 0
          case _ => false)
    case _ => false
  }

  /** The steps from the root that the subscripts name one by one; all but the last lead to a child that is there. */
  predicate Reaches(tree: Json, items: seq<Json>, here: seq<Step>)
    decreases |items|
  {
    && |here| == |items|
    && (items != [] ==> Names(tree, items[0], here[0]))
    && (|items| > 1 ==>
          ChildAt(tree, here[0]).Some? && Reaches(ChildAt(tree, here[0]).value, items[1..], here[1..]))
  }

  ghost predicate Points(tree: Json, path: Json, here: seq<Step>) {
    exists items :: Spells(path, items) && items != [] && Reaches(tree, items, here)
  }

  /** The value is at `here`, everything beside it is as before, and the containers above it keep their shape. */
  ghost predicate Lands(before: Json, after: Json, here: seq<Step>, value: Json) {
    && ReadAt(after, here) == Some(value)
    && forall loc :: Framed(before, after, here, loc)
  }

  lemma {:induction false} NamesIsStep(obj: Json, k: Json, step: Step)
    ensures Names(obj, k, step) <==> StepOf(obj, k) == Some(step)
    ensures Names(obj, k, step) ==> ChildAt(obj, step) == Subscript(obj, k)
  {
  }

  /** Where a set succeeds, the location of its path is what the subscripts name, and the value is there. */
  lemma {:induction false} SetReaches(obj: Json, path: seq<Json>, v: Json)
    requires path != [] && SetAt(obj, path, v).Some?
    ensures Locate(obj, path).Some? && Reaches(obj, path, Locate(obj, path).value)
    ensures ReadAt(SetAt(obj, path, v).value, Locate(obj, path).value) == Some(v)
    decreases |path|
  {
    var child := Subscript(obj, path[0]);
    var v' := if |path| == 1 then v else SetAt(child.value, path[1..], v).value;
    AssignLeavesSiblings(obj, path[0], v', At(0));
    var step := StepOf(obj, path[0]).value;
    NamesIsStep(obj, path[0], step);
    if |path| > 1 {
      SetReaches(child.value, path[1..], v);
      var rest := Locate(child.value, path[1..]).value;
      assert ([step] + rest)[0] == step && ([step] + rest)[1..] == rest;
    } else {
      assert [step][1..] == [];
    }
  }

  /** What the subscripts name can be set. */
  lemma {:induction false} ReachedCanBeSet(obj: Json, path: seq<Json>, v: Json, here: seq<Step>)
    requires path != [] && Reaches(obj, path, here)
    ensures SetAt(obj, path, v).Some? && Locate(obj, path) == Some(here)
    decreases |path|
  {
    NamesIsStep(obj, path[0], here[0]);
    if |path| == 1 {
      assert here == [here[0]];
    } else {
      ReachedCanBeSet(Subscript(obj, path[0]).value, path[1..], v, here[1..]);
      assert here == [here[0]] + here[1..];
    }
  }

  lemma {:induction false} SpellsIsSteps(path: Json, items: seq<Json>)
    ensures Spells(path, items) <==> StepsOf(path) == Some(items)
  {
    if path.Str? && Spells(path, items) {
      assert items == StepsOf(path).value;
    }
  }

  lemma {:induction false} PointsIsLocate(tree: Json, path: Json, here: seq<Step>)
    requires Points(tree, path, here)
    ensures StepsOf(path).Some? && StepsOf(path).value != [] && Reaches(tree, StepsOf(path).value, here)
  {
    var items :| Spells(path, items) && items != [] && Reaches(tree, items, here);
    SpellsIsSteps(path, items);
  }

  /** `_deep_set` succeeds exactly if the subscripts of its path, one by one, name a place in the tree; the place is
      then the only one, the value is put there, and nothing beside it changes. */
  lemma {:induction false} LandsWhereItPoints(shared: Json, path: Json, value: Json)
    ensures DeepSetTo(shared, path, value).Some? <==> exists here :: Points(shared, path, here)
    ensures forall here :: Points(shared, path, here) ==>
              Lands(shared, DeepSetTo(shared, path, value).value, here, value)
    ensures forall here, other :: Points(shared, path, here) && Points(shared, path, other) ==> here == other
  {
    var after := DeepSetTo(shared, path, value);
    if after.Some? {
      var items := StepsOf(path).value;
      SpellsIsSteps(path, items);
      SetReaches(shared, items, value);
      assert Points(shared, path, Locate(shared, items).value);
    }
    forall here | Points(shared, path, here)
      ensures after.Some? && Lands(shared, after.value, here, value)
      ensures here == Locate(shared, StepsOf(path).value).value
    {
      PointsIsLocate(shared, path, here);
      var items := StepsOf(path).value;
      ReachedCanBeSet(shared, items, value, here);
      SetReaches(shared, items, value);
      forall loc
        ensures Framed(shared, after.value, here, loc)
      {
        SetFrame(shared, items, value, loc);
      }
    }
  }

  /** Walks to the last container, then assigns into it. A raise leaves the tree as it was. */
  method DeepSet(shared: Json, path: Json, value: Json) returns (ok: bool, after: Json)
    ensures ok <==> DeepSetTo(shared, path, value).Some?
    ensures after == if ok then DeepSetTo(shared, path, value).value else shared
    ensures ok <==> exists here :: Points(shared, path, here)
    ensures forall here :: Points(shared, path, here) ==> Lands(shared, after, here, value)
  {
    LandsWhereItPoints(shared, path, value);
    var steps := StepsOf(path);
    if steps.None? || steps.value == [] {
      return false, shared;
    }
    var p := steps.value;
    var obj := shared;
    var i := 0;
    while i < |p| - 1
      invariant 0 <= i <= |p| - 1
      invariant GetAt(shared, p[..i]) == Some(obj)
    {
      GetOneMore(shared, p, i);
      var next := Subscript(obj, p[i]);
      if next.None? {
        DeadEnd(shared, p, i, value);
        return false, shared;
      }
      obj := next.value;
      i := i + 1;
    }
    AssignInPlace(shared, p, obj, value);
    var container := Assign(obj, p[i], value);
    if container.None? {
      return false, shared;
    }
    return true, Mutated(shared, p[..i], container.value).value;
  }
}
