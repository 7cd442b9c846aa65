/** Values, the operands of users, and the use lists that say who uses a value where. */
module UseLists {
  datatype Use = Use(user: Value, argNo: int)

  /** How often a use stands in a list. */
  function Times(list: seq<Use>, use: Use): nat {
    if list == [] then 0 else Times(list[..|list| - 1], use) + if list[|list| - 1] == use then 1 else 0
  }

  /** Deletes every entry that is equal. */
  function Deleted(list: seq<Use>, use: Use): seq<Use> {
    if list == [] then []
    else Deleted(list[..|list| - 1], use) + if list[|list| - 1] == use then [] else [list[|list| - 1]]
  }

  lemma TimesAdded(list: seq<Use>, use: Use, x: Use)
    ensures Times(list + [use], x) == Times(list, x) + if x == use then 1 else 0
  {
    assert (list + [use])[..|list|] == list;
  }

  lemma {:induction false} TimesDeleted(list: seq<Use>, use: Use, x: Use)
    ensures Times(Deleted(list, use), x) == if x == use then 0 else Times(list, x)
  {
    if list != [] {
      var init, last := list[..|list| - 1], list[|list| - 1];
      TimesDeleted(init, use, x);
      if last == use {
        assert Deleted(init, use) + [] == Deleted(init, use);
      } else {
        TimesAdded(Deleted(init, use), last, x);
      }
    }
  }

  lemma {:induction false} DeletedShorter(list: seq<Use>, use: Use)
    ensures |Deleted(list, use)| <= |list| && (Times(list, use) > 0 ==> |Deleted(list, use)| < |list|)
  {
    if list != [] {
      DeletedShorter(list[..|list| - 1], use);
    }
  }

  lemma {:induction false} TimesIn(list: seq<Use>, use: Use)
    ensures Times(list, use) > 0 <==> use in list
  {
    if list != [] {
      var init, last := list[..|list| - 1], list[|list| - 1];
      TimesIn(init, use);
      assert use in list <==> use in init || use == last;
    }
  }

  // ----- operands and use lists of all values -----

  datatype State = State(lists: map<Value, seq<Use>>, ops: map<Value, seq<Value?>>)

  ghost predicate Holds(s: State, u: Value, i: int, v: Value) {
    u in s.ops && 0 <= i < |s.ops[u]| && s.ops[u][i] == v
  }

  /** The entry for one place of one user: once if the place holds the value, else not at all. */
  ghost predicate EntryOk(s: State, v: Value, u: Value, i: int) {
    v in s.lists && Times(s.lists[v], Use(u, i)) == if Holds(s, u, i, v) then 1 else 0
  }

  ghost predicate InWorld(s: State) {
    && s.lists.Keys == s.ops.Keys
    && (forall u, i | u in s.ops && 0 <= i < |s.ops[u]| && s.ops[u][i] != null :: s.ops[u][i] in s.lists)
    && forall v, x | v in s.lists && x in s.lists[v] :: x.user in s.ops
  }

  /** Every use list says exactly which operands hold its value. */
  ghost predicate Consistent(s: State) {
    InWorld(s) && forall v, u, i: int | v in s.lists && u in s.ops :: EntryOk(s, v, u, i)
  }

  ghost function Dropped(s: State, v: Value?, u: Value, i: int): State {
    if v == null || v !in s.lists then s else s.(lists := s.lists[v := Deleted(s.lists[v], Use(u, i))])
  }

  ghost function Added(s: State, v: Value?, u: Value, i: int): State {
    if v == null || v !in s.lists then s else s.(lists := s.lists[v := s.lists[v] + [Use(u, i)]])
  }

  /** One operand replaced. */
  ghost function Replaced(s: State, u: Value, i: int, v: Value?): State
    requires u in s.ops && 0 <= i < |s.ops[u]|
  {
    Added(Dropped(s, s.ops[u][i], u, i), v, u, i).(ops := s.ops[u := s.ops[u][i := v]])
  }

  lemma DroppedTimes(s: State, v: Value?, u: Value, i: int, w: Value, x: Use)
    requires w in s.lists
    ensures w in Dropped(s, v, u, i).lists
    ensures Times(Dropped(s, v, u, i).lists[w], x) == if w == v && x == Use(u, i) then 0 else Times(s.lists[w], x)
  {
    if w == v {
      TimesDeleted(s.lists[w], Use(u, i), x);
    }
  }

  lemma AddedTimes(s: State, v: Value?, u: Value, i: int, w: Value, x: Use)
    requires w in s.lists
    ensures w in Added(s, v, u, i).lists
    ensures Times(Added(s, v, u, i).lists[w], x) == Times(s.lists[w], x) + if w == v && x == Use(u, i) then 1 else 0
  {
    if w == v {
      TimesAdded(s.lists[w], Use(u, i), x);
    }
  }

  lemma {:induction false} DeletedIn(list: seq<Use>, use: Use, x: Use)
    ensures x in Deleted(list, use) <==> x in list && x != use
  {
    TimesIn(Deleted(list, use), x);
    TimesIn(list, x);
    TimesDeleted(list, use, x);
  }

  lemma ReplacedInWorld(s: State, u: Value, i: int, v: Value?)
    requires InWorld(s) && u in s.ops && 0 <= i < |s.ops[u]| && (v != null ==> v in s.lists)
    ensures InWorld(Replaced(s, u, i, v))
  {
    hide Times, Deleted;
    var t := Replaced(s, u, i, v);
    forall w, x | w in t.lists && x in t.lists[w] ensures x.user in t.ops {
      DeletedIn(s.lists[w], Use(u, i), x);
    }
  }

  lemma ReplacedConsistent(s: State, u: Value, i: int, v: Value?)
    requires Consistent(s) && u in s.ops && 0 <= i < |s.ops[u]| && (v != null ==> v in s.lists)
    ensures Consistent(Replaced(s, u, i, v))
  {
    hide Times, Deleted;
    ReplacedInWorld(s, u, i, v);
    var s1 := Dropped(s, s.ops[u][i], u, i);
    var t := Replaced(s, u, i, v);
    forall w, p, k: int | w in t.lists && p in t.ops ensures EntryOk(t, w, p, k) {
      assert EntryOk(s, w, p, k);
      DroppedTimes(s, s.ops[u][i], u, i, w, Use(p, k));
      AddedTimes(s1, v, u, i, w, Use(p, k));
    }
  }

  // ----- the other operations on operands -----

  ghost function Appended(s: State, u: Value, v: Value): State
    requires u in s.ops
  {
    Added(s, v, u, |s.ops[u]|).(ops := s.ops[u := s.ops[u] + [v]])
  }

  lemma AppendedConsistent(s: State, u: Value, v: Value)
    requires Consistent(s) && u in s.ops && v in s.lists
    ensures Consistent(Appended(s, u, v))
  {
    hide Times, Deleted;
    var t, n := Appended(s, u, v), |s.ops[u]|;
    forall w, p, k: int | w in t.lists && p in t.ops ensures EntryOk(t, w, p, k) {
      assert EntryOk(s, w, p, k);
      AddedTimes(s, v, u, n, w, Use(p, k));
    }
  }

  /** The first k operands' entries are gone. */
  ghost function Forgotten(s: State, u: Value, k: nat): State
    requires u in s.ops && k <= |s.ops[u]|
    ensures Forgotten(s, u, k).ops == s.ops && Forgotten(s, u, k).lists.Keys == s.lists.Keys
  {
    if k == 0 then s else Dropped(Forgotten(s, u, k - 1), s.ops[u][k - 1], u, k - 1)
  }

  lemma {:induction false} ForgottenTimes(s: State, u: Value, k: nat, w: Value, p: Value, j: int)
    requires Consistent(s) && u in s.ops && k <= |s.ops[u]| && w in s.lists && p in s.ops
    ensures Times(Forgotten(s, u, k).lists[w], Use(p, j)) == if p == u && 0 <= j < k then 0 else Times(s.lists[w], Use(p, j))
    decreases k
  {
    hide Times, Dropped, InWorld;
    if k > 0 {
      ForgottenTimes(s, u, k - 1, w, p, j);
      DroppedTimes(Forgotten(s, u, k - 1), s.ops[u][k - 1], u, k - 1, w, Use(p, j));
      assert EntryOk(s, w, u, j);
    }
  }

  lemma {:induction false} ForgottenIn(s: State, u: Value, k: nat, w: Value, x: Use)
    requires u in s.ops && k <= |s.ops[u]| && w in s.lists && x in Forgotten(s, u, k).lists[w]
    ensures x in s.lists[w]
    decreases k
  {
    hide Deleted;
    if k > 0 {
      var s1 := Forgotten(s, u, k - 1);
      DeletedIn(s1.lists[w], Use(u, k - 1), x);
      ForgottenIn(s, u, k - 1, w, x);
    }
  }

  lemma ForgottenConsistent(s: State, u: Value)
    requires Consistent(s) && u in s.ops
    ensures Consistent(Forgotten(s, u, |s.ops[u]|).(ops := s.ops[u := []]))
  {
    hide Times, Deleted;
    var n := |s.ops[u]|;
    var t := Forgotten(s, u, n).(ops := s.ops[u := []]);
    forall w, x | w in t.lists && x in t.lists[w] ensures x.user in t.ops {
      ForgottenIn(s, u, n, w, x);
    }
    forall w, p, k: int | w in t.lists && p in t.ops ensures EntryOk(t, w, p, k) {
      assert EntryOk(s, w, p, k);
      ForgottenTimes(s, u, n, w, p, k);
    }
  }

  /** The entries of the operands behind idx, up to k, each moved down by one. */
  ghost function Shifted(s: State, u: Value, idx: nat, k: nat): State
    requires u in s.ops && idx < k <= |s.ops[u]|
    ensures Shifted(s, u, idx, k).ops == s.ops && Shifted(s, u, idx, k).lists.Keys == s.lists.Keys
  {
    if k == idx + 1 then s
    else
      var s1 := Shifted(s, u, idx, k - 1);
      Added(Dropped(s1, s.ops[u][k - 1], u, k - 1), s.ops[u][k - 1], u, k - 2)
  }

  ghost function Removed(s: State, u: Value, idx: nat): State
    requires u in s.ops && idx < |s.ops[u]|
  {
    Dropped(Shifted(s, u, idx, |s.ops[u]|), s.ops[u][idx], u, idx).(ops := s.ops[u := s.ops[u][..idx] + s.ops[u][idx + 1..]])
  }

  ghost function One(s: State, u: Value, i: int, w: Value): nat {
    if Holds(s, u, i, w) then 1 else 0
  }

  /** How often place j of u stands in the list of w when the entries up to k have been moved. */
  ghost function ShiftedCount(s: State, u: Value, idx: nat, k: nat, w: Value, j: int): nat {
    if j < idx || j >= k then One(s, u, j, w)
    else if k == idx + 1 then One(s, u, idx, w)
    else if j == idx then One(s, u, idx, w) + One(s, u, idx + 1, w)
    else if j == k - 1 then 0
    else One(s, u, j + 1, w)
  }

  lemma ShiftedStep(s: State, u: Value, idx: nat, k: nat, w: Value, x: Use)
    requires u in s.ops && idx + 1 < k <= |s.ops[u]| && w in s.lists
    ensures var v, before := s.ops[u][k - 1], Times(Shifted(s, u, idx, k - 1).lists[w], x);
            Times(Shifted(s, u, idx, k).lists[w], x) ==
            (if w == v && x == Use(u, k - 1) then 0 else before) + if w == v && x == Use(u, k - 2) then 1 else 0
    ensures x in Shifted(s, u, idx, k).lists[w] ==> x in Shifted(s, u, idx, k - 1).lists[w] || x.user == u
  {
    hide Times, Deleted;
    var s1, v := Shifted(s, u, idx, k - 1), s.ops[u][k - 1];
    var s2 := Dropped(s1, v, u, k - 1);
    DroppedTimes(s1, v, u, k - 1, w, x);
    AddedTimes(s2, v, u, k - 2, w, x);
    DeletedIn(s1.lists[w], Use(u, k - 1), x);
  }

  lemma {:induction false} ShiftedTimes(s: State, u: Value, idx: nat, k: nat, w: Value, j: int)
    requires Consistent(s) && u in s.ops && idx < k <= |s.ops[u]| && w in s.lists
    ensures Times(Shifted(s, u, idx, k).lists[w], Use(u, j)) == ShiftedCount(s, u, idx, k, w, j)
    decreases k
  {
    hide Times, Dropped, Added;
    assert EntryOk(s, w, u, j);
    if k > idx + 1 {
      ShiftedTimes(s, u, idx, k - 1, w, j);
      ShiftedStep(s, u, idx, k, w, Use(u, j));
    }
  }

  lemma {:induction false} ShiftedOthers(s: State, u: Value, idx: nat, k: nat, w: Value, p: Value, j: int)
    requires Consistent(s) && u in s.ops && idx < k <= |s.ops[u]| && w in s.lists && p in s.ops && p != u
    ensures Times(Shifted(s, u, idx, k).lists[w], Use(p, j)) == One(s, p, j, w)
    decreases k
  {
    hide Times, Dropped, Added;
    assert EntryOk(s, w, p, j);
    if k > idx + 1 {
      ShiftedOthers(s, u, idx, k - 1, w, p, j);
      ShiftedStep(s, u, idx, k, w, Use(p, j));
    }
  }

  lemma {:induction false} ShiftedUsers(s: State, u: Value, idx: nat, k: nat, w: Value, x: Use)
    requires u in s.ops && idx < k <= |s.ops[u]| && w in s.lists && x in Shifted(s, u, idx, k).lists[w]
    ensures x in s.lists[w] || x.user == u
    decreases k
  {
    hide Times, Dropped, Added;
    if k > idx + 1 {
      ShiftedStep(s, u, idx, k, w, x);
      if x.user != u {
        ShiftedUsers(s, u, idx, k - 1, w, x);
      }
    }
  }

  /** The entry of a place after the removal, for every value. */
  lemma RemovedTimes(s: State, u: Value, idx: nat, w: Value, p: Value, j: int)
    requires Consistent(s) && u in s.ops && idx < |s.ops[u]| && w in s.lists && p in s.ops
    requires forall i | idx <= i < |s.ops[u]| :: s.ops[u][i] != null
    ensures var t, n := Removed(s, u, idx), |s.ops[u]|;
            w in t.lists && Times(t.lists[w], Use(p, j)) ==
            if p == u && j == idx && w == s.ops[u][idx] then 0 else if Holds(t, p, j, w) then 1 else 0
  {
    hide Times, Deleted, Shifted;
    var n := |s.ops[u]|;
    if p == u {
      ShiftedTimes(s, u, idx, n, w, j);
    } else {
      ShiftedOthers(s, u, idx, n, w, p, j);
    }
    DroppedTimes(Shifted(s, u, idx, n), s.ops[u][idx], u, idx, w, Use(p, j));
    var ops := s.ops[u][..idx] + s.ops[u][idx + 1..];
    assert forall i | 0 <= i < |ops| :: ops[i] == if i < idx then s.ops[u][i] else s.ops[u][i + 1];
  }

  lemma RemovedInWorld(s: State, u: Value, idx: nat)
    requires Consistent(s) && u in s.ops && idx < |s.ops[u]|
    ensures InWorld(Removed(s, u, idx))
  {
    hide Times, Deleted, Shifted;
    var t, n := Removed(s, u, idx), |s.ops[u]|;
    forall w, x | w in t.lists && x in t.lists[w] ensures x.user in t.ops {
      if x in Shifted(s, u, idx, n).lists[w] {
        ShiftedUsers(s, u, idx, n, w, x);
      }
      DeletedIn(Shifted(s, u, idx, n).lists[w], Use(u, idx), x);
    }
    forall p, i | p in t.ops && 0 <= i < |t.ops[p]| && t.ops[p][i] != null ensures t.ops[p][i] in t.lists {
      if p == u {
        assert t.ops[p][i] == s.ops[u][if i < idx then i else i + 1];
      }
    }
  }

  /** Deleting every equal entry is right exactly if the next operand is a different one. */
  lemma RemovedConsistent(s: State, u: Value, idx: nat)
    requires Consistent(s) && u in s.ops && idx < |s.ops[u]|
    requires forall i | idx <= i < |s.ops[u]| :: s.ops[u][i] != null
    ensures Consistent(Removed(s, u, idx)) <==> !(idx + 1 < |s.ops[u]| && s.ops[u][idx] == s.ops[u][idx + 1])
  {
    hide Times, Deleted, Shifted;
    var t, v := Removed(s, u, idx), s.ops[u][idx];
    RemovedInWorld(s, u, idx);
    if idx + 1 < |s.ops[u]| && v == s.ops[u][idx + 1] {
      RemovedTimes(s, u, idx, v, u, idx);
      assert t.ops[u][idx] == s.ops[u][idx + 1];
      assert !EntryOk(t, v, u, idx);
    } else {
      forall w, p, k: int | w in t.lists && p in t.ops ensures EntryOk(t, w, p, k) {
        RemovedTimes(s, u, idx, w, p, k);
        if p == u && k == idx && idx + 1 < |s.ops[u]| {
          assert t.ops[u][idx] == s.ops[u][idx + 1];
        }
      }
    }
  }

  /** A user with one value as both of its operands. */
  ghost function TwiceUsed(u: Value, v: Value): State {
    State(map[v := [Use(u, 0), Use(u, 1)], u := []], map[u := [v, v], v := []])
  }

  lemma TwiceConsistent(u: Value, v: Value)
    requires u != v
    ensures Consistent(TwiceUsed(u, v))
  {
    hide Times;
    var s := TwiceUsed(u, v);
    forall x ensures Times([], x) == 0 && Times(s.lists[v], x) == (if x == Use(u, 0) then 1 else 0) + if x == Use(u, 1) then 1 else 0 {
      TimesIn([], x);
      TimesAdded([], Use(u, 0), x);
      TimesAdded([Use(u, 0)], Use(u, 1), x);
      assert [] + [Use(u, 0)] == [Use(u, 0)] && [Use(u, 0)] + [Use(u, 1)] == s.lists[v];
    }
    forall w, p, i: int | w in s.lists && p in s.ops ensures EntryOk(s, w, p, i) {
    }
  }

  /** When the first operand of such a user is removed, no use list knows of the one that is left. */
  lemma EqualNeighbours(u: Value, v: Value)
    requires u != v
    ensures var s, t := TwiceUsed(u, v), Removed(TwiceUsed(u, v), u, 0);
            Consistent(s) && t.ops[u] == [v] && v in t.lists && Use(u, 0) !in t.lists[v] && !Consistent(t)
  {
    hide Times, Deleted, Shifted, Consistent, InWorld;
    var s := TwiceUsed(u, v);
    var t := Removed(s, u, 0);
    TwiceConsistent(u, v);
    RemovedConsistent(s, u, 0);
    RemovedTimes(s, u, 0, v, u, 0);
    TimesIn(t.lists[v], Use(u, 0));
  }

  // ----- the objects -----

  ghost function StateOf(world: set<Value>): State
    reads world
  {
    State(map v | v in world :: v.useList, map v | v in world :: v.operands)
  }

  class Value {
    var useList: seq<Use>
    var operands: seq<Value?>

    constructor ()
      ensures useList == [] && operands == []
    {
      useList, operands := [], [];
    }

    method AddUse(user: Value, argNo: int, ghost world: set<Value>)
      requires this in world
      modifies this`useList
      ensures useList == old(useList) + [Use(user, argNo)]
      ensures StateOf(world) == Added(old(StateOf(world)), this, user, argNo)
    {
      useList := useList + [Use(user, argNo)];
    }

    method RemoveUse(user: Value, argNo: int, ghost world: set<Value>)
      requires this in world
      modifies this`useList
      ensures useList == Deleted(old(useList), Use(user, argNo))
      ensures StateOf(world) == Dropped(old(StateOf(world)), this, user, argNo)
    {
      var targetUse := Use(user, argNo);
      var left: seq<Use> := [];
      var i := 0;
      while i < |useList|
        invariant 0 <= i <= |useList| && useList == old(useList) && left == Deleted(useList[..i], targetUse)
      {
        assert useList[..i + 1][..i] == useList[..i];
        if useList[i] != targetUse {
          left := left + [useList[i]];
        }
        i := i + 1;
      }
      assert useList[..i] == useList;
      useList := left;
    }

    method SetOperand(i: nat, v: Value?, ghost world: set<Value>)
      requires Consistent(StateOf(world)) && this in world && i < |operands| && (v != null ==> v in world)
      modifies this`operands, world`useList
      ensures StateOf(world) == Replaced(old(StateOf(world)), this, i, v) && Consistent(StateOf(world))
    {
      hide Consistent, Dropped, Added;
      ghost var s := StateOf(world);
      ReplacedConsistent(s, this, i, v);
      OperandKnown(s, this, i);
      DroppedSame(s, s.ops[this][i], this, i);
      if operands[i] != null {
        operands[i].RemoveUse(this, i, world);
      }
      AddedSame(Dropped(s, s.ops[this][i], this, i), v, this, i);
      if v != null {
        v.AddUse(this, i, world);
      }
      ghost var s2 := StateOf(world);
      operands := operands[i := v];
      StateUpdated(world, s2, this);
    }

    method AddOperand(v: Value, ghost world: set<Value>)
      requires Consistent(StateOf(world)) && this in world && v in world
      modifies this`operands, v`useList
      ensures StateOf(world) == Appended(old(StateOf(world)), this, v) && Consistent(StateOf(world))
    {
      hide Consistent, Added;
      ghost var s := StateOf(world);
      AppendedConsistent(s, this, v);
      AddedSame(s, v, this, |operands|);
      v.AddUse(this, |operands|, world);
      ghost var s1 := StateOf(world);
      operands := operands + [v];
      StateUpdated(world, s1, this);
    }

    method RemoveAllOperands(ghost world: set<Value>)
      requires Consistent(StateOf(world)) && this in world
      modifies this`operands, world`useList
      ensures operands == [] && Consistent(StateOf(world))
      ensures forall w | w in world && w != this :: w.operands == old(w.operands)
    {
      hide Consistent, Dropped;
      ghost var s := StateOf(world);
      ForgottenConsistent(s, this);
      var i := 0;
      while i < |operands|
        invariant 0 <= i <= |operands| && operands == s.ops[this] && StateOf(world) == Forgotten(s, this, i)
      {
        OperandKnown(s, this, i);
        DroppedSame(Forgotten(s, this, i), operands[i], this, i);
        if operands[i] != null {
          operands[i].RemoveUse(this, i, world);
        }
        i := i + 1;
      }
      ghost var s1 := StateOf(world);
      operands := [];
      StateUpdated(world, s1, this);
    }

    /** The operands behind the one that goes are used one place earlier. */
    method ShiftUses(idx: nat, ghost world: set<Value>)
      requires Consistent(StateOf(world)) && this in world && idx < |operands|
      requires forall i | idx <= i < |operands| :: operands[i] != null
      modifies world`useList
      ensures StateOf(world) == Shifted(old(StateOf(world)), this, idx, |operands|)
    {
      hide Consistent, Dropped, Added, Shifted;
      ghost var s := StateOf(world);
      ShiftedNone(s, this, idx);
      var i := idx + 1;
      while i < |operands|
        invariant idx < i <= |operands| && operands == s.ops[this] && StateOf(world) == Shifted(s, this, idx, i)
      {
        ShiftOne(s, idx, i, world);
        i := i + 1;
      }
    }

    method ShiftOne(ghost s: State, ghost idx: nat, i: nat, ghost world: set<Value>)
      requires Consistent(s) && s.ops.Keys == world && this in world && operands == s.ops[this]
      requires idx < i < |operands| && operands[i] != null && StateOf(world) == Shifted(s, this, idx, i)
      modifies world`useList
      ensures StateOf(world) == Shifted(s, this, idx, i + 1)
    {
      hide Consistent, Dropped, Added, StateOf;
      OperandKnown(s, this, i);
      assert operands[i] in world by {
        WorldKeys(s);
      }
      operands[i].RemoveUse(this, i, world);
      operands[i].AddUse(this, i - 1, world);
    }

    /** The use lists are right afterwards exactly if the next operand is a different value. */
    method RemoveOperand(idx: nat, ghost world: set<Value>)
      requires Consistent(StateOf(world)) && this in world && idx < |operands|
      requires forall i | idx <= i < |operands| :: operands[i] != null
      modifies this`operands, world`useList
      ensures operands == old(operands)[..idx] + old(operands)[idx + 1..]
      ensures Consistent(StateOf(world)) <==> !(idx + 1 < |old(operands)| && old(operands)[idx] == old(operands)[idx + 1])
    {
      hide Consistent, Dropped, Added, Shifted;
      ghost var s := StateOf(world);
      RemovedConsistent(s, this, idx);
      OperandKnown(s, this, idx);
      DroppedSame(Shifted(s, this, idx, |operands|), operands[idx], this, idx);
      ShiftUses(idx, world);
      operands[idx].RemoveUse(this, idx, world);
      ghost var s1 := StateOf(world);
      operands := operands[..idx] + operands[idx + 1..];
      StateUpdated(world, s1, this);
    }

    /** Every operand that was this value is the new one; nothing else changes. */
    method ReplaceAllUseWith(newVal: Value?, ghost world: set<Value>)
      requires Consistent(StateOf(world)) && this in world && (newVal != null ==> newVal in world)
      modifies world
      ensures Consistent(StateOf(world)) && (newVal != this ==> useList == [])
      ensures forall u | u in world :: |u.operands| == |old(u.operands)|
      ensures forall u, i | u in world && 0 <= i < |u.operands| ::
                u.operands[i] == if old(u.operands)[i] == this then newVal else old(u.operands)[i]
    {
      hide Consistent, Deleted, Times;
      if this == newVal {
        return;
      }
      while useList != []
        invariant Consistent(StateOf(world))
        invariant forall u | u in world :: |u.operands| == |old(u.operands)|
        invariant forall u, i | u in world && 0 <= i < |u.operands| ::
                    u.operands[i] == old(u.operands)[i] || (old(u.operands)[i] == this && u.operands[i] == newVal)
        decreases |useList|
      {
        var use := useList[0];
        ghost var s := StateOf(world);
        FirstUse(s, this);
        ReplacedShorter(s, use.user, use.argNo, newVal, this);
        use.user.SetOperand(use.argNo, newVal, world);
        assert forall u | u in world :: u.operands == StateOf(world).ops[u];
        assert useList == StateOf(world).lists[this];
      }
      NoUses(StateOf(world), this);
      forall u, i | u in world && 0 <= i < |u.operands| ensures u.operands[i] != this {
        assert u.operands == StateOf(world).ops[u];
      }
    }
  }

  lemma ShiftedNone(s: State, u: Value, idx: nat)
    requires u in s.ops && idx < |s.ops[u]|
    ensures Shifted(s, u, idx, idx + 1) == s
  {
  }

  lemma WorldKeys(s: State)
    requires Consistent(s)
    ensures s.lists.Keys == s.ops.Keys
  {
  }

  lemma DroppedSame(s: State, v: Value?, u: Value, i: int)
    ensures Dropped(s, v, u, i).ops == s.ops && (v == null ==> Dropped(s, v, u, i) == s)
  {
  }

  lemma AddedSame(s: State, v: Value?, u: Value, i: int)
    ensures Added(s, v, u, i).ops == s.ops && (v == null ==> Added(s, v, u, i) == s)
  {
  }

  /** Only the operands of u are different. */
  lemma StateUpdated(world: set<Value>, s: State, u: Value)
    requires u in world && s.lists.Keys == world == s.ops.Keys
    requires forall v | v in world :: v.useList == s.lists[v] && (v != u ==> v.operands == s.ops[v])
    ensures StateOf(world) == s.(ops := s.ops[u := u.operands])
  {
    assert StateOf(world).lists == s.lists;
    assert StateOf(world).ops == s.ops[u := u.operands];
  }

  lemma OperandKnown(s: State, u: Value, i: int)
    requires Consistent(s) && u in s.ops && 0 <= i < |s.ops[u]|
    ensures s.ops[u][i] != null ==> s.ops[u][i] in s.lists
  {
  }

  /** A use in the list is of an operand that holds the value. */
  lemma FirstUse(s: State, v: Value)
    requires Consistent(s) && v in s.lists && s.lists[v] != []
    ensures var use := s.lists[v][0]; use.user in s.ops && Holds(s, use.user, use.argNo, v)
  {
    var use := s.lists[v][0];
    assert use in s.lists[v];
    assert EntryOk(s, v, use.user, use.argNo);
    TimesIn(s.lists[v], use);
  }

  lemma ReplacedShorter(s: State, u: Value, i: int, v: Value?, w: Value)
    requires Consistent(s) && u in s.ops && Holds(s, u, i, w) && w in s.lists && v != w
    ensures |Replaced(s, u, i, v).lists[w]| < |s.lists[w]|
  {
    assert EntryOk(s, w, u, i);
    DeletedShorter(s.lists[w], Use(u, i));
  }

  lemma NoUses(s: State, v: Value)
    requires Consistent(s) && v in s.lists && s.lists[v] == []
    ensures forall u, i | u in s.ops && 0 <= i < |s.ops[u]| :: s.ops[u][i] != v
  {
    forall u, i | u in s.ops && 0 <= i < |s.ops[u]| ensures s.ops[u][i] != v {
      assert EntryOk(s, v, u, i);
    }
  }
}
