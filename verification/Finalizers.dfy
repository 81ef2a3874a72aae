/** The finalizer list over a whole plan. */
module Finalizers {
  import opened Contract
  import opened PlanValidation

  /** A copy of the list without the members of gone, in order. */
  function Keep(list: seq<string>, gone: set<string>): seq<string> {
    if list == [] then []
    else (if list[0] in gone then [] else [list[0]]) + Keep(list[1..], gone)
  }

  /** One finalizer operation on the list that was read. */
  function Edited(list: seq<string>, mutation: FinalizerMutation, finalizer: string): seq<string> {
    match mutation
    case AddFinalizer => if finalizer in list then list else list + [finalizer]
    case RemoveFinalizer => Keep(list, {finalizer})
  }

  /** The finalizer operations of a plan, one after another. */
  function Fold(ops: seq<Operation>, list: seq<string>): seq<string>
    decreases |ops|
  {
    if ops == [] then list
    else match ops[0]
      case Finalizer(mutation, finalizer) => Fold(ops[1..], Edited(list, mutation, finalizer))
      case _ => Fold(ops[1..], list)
  }

  /** Names the plan adds, in plan order. */
  function Added(ops: seq<Operation>): seq<string> {
    if ops == [] then []
    else (if ops[0].Finalizer? && ops[0].mutation.AddFinalizer? then [ops[0].finalizer] else []) + Added(ops[1..])
  }

  function Removed(ops: seq<Operation>): set<string> {
    set op | op in ops && op.Finalizer? && op.mutation.RemoveFinalizer? :: op.finalizer
  }

  /** The names not yet in the list, each at its first occurrence. */
  function Missing(names: seq<string>, list: seq<string>): seq<string> {
    if names == [] then []
    else if names[0] in list then Missing(names[1..], list)
    else [names[0]] + Missing(names[1..], list + [names[0]])
  }

  lemma {:induction false} KeepMembers(list: seq<string>, gone: set<string>)
    ensures forall x :: x in Keep(list, gone) <==> x in list && x !in gone
  {
    if list != [] {
      KeepMembers(list[1..], gone);
      assert list == [list[0]] + list[1..];
    }
  }

  lemma {:induction false} KeepConcat(a: seq<string>, b: seq<string>, gone: set<string>)
    ensures Keep(a + b, gone) == Keep(a, gone) + Keep(b, gone)
  {
    if a == [] {
      assert a + b == b;
    } else {
      assert (a + b)[1..] == a[1..] + b;
      KeepConcat(a[1..], b, gone);
    }
  }

  lemma {:induction false} KeepTwice(list: seq<string>, first: set<string>, second: set<string>)
    ensures Keep(Keep(list, first), second) == Keep(list, first + second)
  {
    if list != [] {
      KeepTwice(list[1..], first, second);
      KeepConcat(if list[0] in first then [] else [list[0]], Keep(list[1..], first), second);
      assert Keep([list[0]], second) == if list[0] in second then [] else [list[0]];
      assert Keep([], second) == [];
    }
  }

  lemma {:induction false} KeepAll(list: seq<string>, gone: set<string>)
    requires forall x :: x in list ==> x !in gone
    ensures Keep(list, gone) == list
  {
    if list != [] {
      KeepAll(list[1..], gone);
    }
  }

  lemma {:induction false} KeepNone(list: seq<string>, gone: set<string>)
    requires forall x :: x in list ==> x in gone
    ensures Keep(list, gone) == []
  {
    if list != [] {
      KeepNone(list[1..], gone);
    }
  }

  /** Missing names are exactly the added ones that are not there, once each. */
  lemma {:induction false} MissingMembers(names: seq<string>, list: seq<string>)
    ensures forall x :: x in Missing(names, list) <==> x in names && x !in list
    ensures forall i, j :: 0 <= i < j < |Missing(names, list)| ==> Missing(names, list)[i] != Missing(names, list)[j]
    decreases |names|
  {
    if names != [] {
      assert names == [names[0]] + names[1..];
      if names[0] in list {
        MissingMembers(names[1..], list);
      } else {
        MissingMembers(names[1..], list + [names[0]]);
        assert names[0] !in Missing(names[1..], list + [names[0]]);
      }
    }
  }

  lemma RemovedStep(ops: seq<Operation>)
    requires ops != []
    ensures Removed(ops)
            == (if ops[0].Finalizer? && ops[0].mutation.RemoveFinalizer? then {ops[0].finalizer} else {})
               + Removed(ops[1..])
  {
    assert ops == [ops[0]] + ops[1..];
  }

  lemma OrderedTail(ops: seq<Operation>)
    requires ops != [] && Ordered(ops, |ops|)
    ensures Ordered(ops[1..], |ops| - 1)
    ensures forall i :: 0 <= i < |ops[1..]| ==> Order(ops[0]) <= Order(ops[1..][i])
  {
  }

  lemma {:induction false} NoAddsLeft(ops: seq<Operation>)
    requires forall i :: 0 <= i < |ops| ==> Order(ops[i]) > 0
    ensures Added(ops) == []
  {
    if ops != [] {
      NoAddsLeft(ops[1..]);
    }
  }

  /** What a plan makes of a finalizer list L: the members of L that the plan does not remove, in their
      order, then the names it adds and does not remove that were missing, once each. */
  function PlanResult(ops: seq<Operation>, list: seq<string>): seq<string> {
    Keep(list, Removed(ops)) + Keep(Missing(Added(ops), list), Removed(ops))
  }

  lemma AddFirst(ops: seq<Operation>, list: seq<string>, f: string)
    requires ops != [] && ops[0] == Finalizer(AddFinalizer, f)
    ensures PlanResult(ops, list) == PlanResult(ops[1..], Edited(list, AddFinalizer, f))
  {
    var gone := Removed(ops);
    RemovedStep(ops);
    assert gone == {} + Removed(ops[1..]) == Removed(ops[1..]);
    assert Added(ops) == [f] + Added(ops[1..]);
    assert Added(ops)[1..] == Added(ops[1..]);
    if f !in list {
      KeepConcat(list, [f], gone);
      var rest := Missing(Added(ops[1..]), list + [f]);
      KeepConcat([f], rest, gone);
      assert Missing(Added(ops), list) == [f] + rest;
      assert (Keep(list, gone) + Keep([f], gone)) + Keep(rest, gone)
          == Keep(list, gone) + (Keep([f], gone) + Keep(rest, gone));
    }
  }

  lemma RemoveFirst(ops: seq<Operation>, list: seq<string>, f: string)
    requires ops != [] && ops[0] == Finalizer(RemoveFinalizer, f) && Ordered(ops, |ops|)
    ensures PlanResult(ops, list) == PlanResult(ops[1..], Keep(list, {f}))
  {
    OrderedTail(ops);
    RemovedStep(ops);
    NoAddsLeft(ops[1..]);
    NoAddsLeft(ops);
    KeepTwice(list, {f}, Removed(ops[1..]));
  }

  lemma {:induction false} PlanFinalizers(ops: seq<Operation>, list: seq<string>)
    requires Ordered(ops, |ops|)
    ensures Fold(ops, list) == PlanResult(ops, list)
    decreases |ops|
  {
    if ops == [] {
      KeepAll(list, {});
      assert Removed(ops) == {} && Added(ops) == [] && list + [] == list;
    } else {
      OrderedTail(ops);
      match ops[0] {
        case Finalizer(AddFinalizer, f) =>
          PlanFinalizers(ops[1..], Edited(list, AddFinalizer, f));
          AddFirst(ops, list, f);
        case Finalizer(RemoveFinalizer, f) =>
          PlanFinalizers(ops[1..], Keep(list, {f}));
          RemoveFirst(ops, list, f);
        case _ =>
          PlanFinalizers(ops[1..], list);
          RemovedStep(ops);
          assert Added(ops) == [] + Added(ops[1..]) == Added(ops[1..]);
          assert Removed(ops) == {} + Removed(ops[1..]) == Removed(ops[1..]);
      }
    }
  }

  /** Consequences: nothing removed stays, everything added and not removed is there, and running the
      whole plan again changes nothing. */
  lemma PlanFinalizersReplay(ops: seq<Operation>, list: seq<string>)
    requires Ordered(ops, |ops|)
    ensures var after := Fold(ops, list);
            && (forall x :: x in after <==> (x in list || x in Added(ops)) && x !in Removed(ops))
            && Fold(ops, after) == after
  {
    var gone := Removed(ops);
    var names := Added(ops);
    var after := Fold(ops, list);
    PlanFinalizers(ops, list);
    KeepMembers(list, gone);
    MissingMembers(names, list);
    KeepMembers(Missing(names, list), gone);
    PlanFinalizers(ops, after);
    KeepAll(after, gone);
    MissingMembers(names, after);
    KeepNone(Missing(names, after), gone);
    assert after + [] == after;
  }
}
