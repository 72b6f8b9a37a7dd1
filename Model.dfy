/**
 * The model of screen_animator: it owns an ordered list of item groups, builds
 * and creates them on `init`, updates them all on every tick and then posts one
 * update event, and is switched off by `quit`.
 *
 * The groups themselves are opaque here: what the model does to them (its
 * `create` and `update` calls) and the events it posts are recorded, in order,
 * in the `calls` log.
 */
module AnimatorModel {
  import opened Items
  import opened Wrappers

  /** A class handle for an item group (`type[ItemGroup]`). */
  type GroupType = nat

  /** An item group as built by the model: its class and the perimeter it was handed. */
  datatype Group = Group(kind: GroupType, perimeter: Rect)

  /** One thing the model does outside itself: a call on the group at an index, or posting an event. */
  datatype Call = Created(group: nat) | Updated(group: nat) | Posted(eventType: int)

  /** The list comprehension of `init`: one group per class handle, in the same order. */
  function Built(kinds: seq<GroupType>, perimeter: Rect): (groups: seq<Group>)
    ensures |groups| == |kinds|
    ensures forall i :: 0 <= i < |kinds| ==> groups[i].kind == kinds[i] && groups[i].perimeter == perimeter
  {
    seq(|kinds|, i requires 0 <= i < |kinds| => Group(kinds[i], perimeter))
  }

  /** `create` on each of n groups, in list order. */
  function CreateRound(n: nat): seq<Call>
  {
    seq(n, (i: nat) => Created(i))
  }

  /** `update` on each of n groups, in list order. */
  function UpdateCalls(n: nat): seq<Call>
  {
    seq(n, (i: nat) => Updated(i))
  }

  /** One tick of the model: update each of n groups in list order, then post one event. */
  function UpdateRound(n: nat, eventType: int): seq<Call>
  {
    UpdateCalls(n) + [Posted(eventType)]
  }

  class Model {
    const groupTypes: seq<GroupType>
    var initialized: bool
    var updateEventType: int
    /** `_perimeter`, unset until `init`. */
    var perimeter: Option<Rect>
    /** `item_groups`, unset until `init`. */
    var groups: Option<seq<Group>>
    /** The calls made on groups and the events posted, oldest first. */
    var calls: seq<Call>

    /** A new model is not initialised, its update event type is 0 and it has no groups yet. */
    constructor (groupTypes: seq<GroupType>)
      ensures this.groupTypes == groupTypes
      ensures !initialized && updateEventType == 0
      ensures perimeter == None && groups == None && calls == []
    {
      this.groupTypes := groupTypes;
      initialized := false;
      updateEventType := 0;
      perimeter := None;
      groups := None;
      calls := [];
    }

    /** Build one group per class handle, call `create` on each in order, then mark the model initialised. */
    method Init(perimeter: Rect)
      modifies this
      ensures this.perimeter == Some(perimeter)
      ensures groups == Some(Built(groupTypes, perimeter))
      ensures calls == old(calls) + CreateRound(|groupTypes|)
      ensures initialized
      ensures updateEventType == old(updateEventType)
    {
      this.perimeter := Some(perimeter);
      var built := Built(groupTypes, perimeter);
      groups := Some(built);
      var i := 0;
      while i < |built|
        invariant 0 <= i <= |built|
        invariant groups == Some(built) && this.perimeter == Some(perimeter)
        invariant updateEventType == old(updateEventType)
        invariant calls == old(calls) + CreateRound(i)
      {
        assert CreateRound(i + 1) == CreateRound(i) + [Created(i)];
        calls := calls + [Created(i)];
        i := i + 1;
      }
      initialized := true;
    }

    /**
     * Update every group in order, then post one update event. Before `init`
     * there is no group list and the source fails (`ok` is false, nothing happens).
     */
    method Update() returns (ok: bool)
      modifies this`calls
      ensures ok <==> groups.Some?
      ensures ok ==> calls == old(calls) + UpdateRound(|groups.value|, updateEventType)
      ensures !ok ==> calls == old(calls)
    {
      if groups.None? {
        return false;
      }
      var gs := groups.value;
      var i := 0;
      while i < |gs|
        invariant 0 <= i <= |gs|
        invariant calls == old(calls) + UpdateCalls(i)
      {
        assert UpdateCalls(i + 1) == UpdateCalls(i) + [Updated(i)];
        calls := calls + [Updated(i)];
        i := i + 1;
      }
      calls := calls + [Posted(updateEventType)];
      ok := true;
    }

    /** Mark the model as ready to quit; nothing else changes. */
    method Quit()
      modifies this`initialized
      ensures !initialized
    {
      initialized := false;
    }

    /** The `initialized` property. */
    function Initialized(): (b: bool)
      reads this
    {
      initialized
    }
  }

  /** n update calls, one per group: each group index below n occurs exactly once, and no event is posted. */
  lemma {:induction false} UpdateCallsOnce(n: nat, c: Call)
    ensures multiset(UpdateCalls(n))[c] == if c.Updated? && c.group < n then 1 else 0
  {
    if n > 0 {
      UpdateCallsOnce(n - 1, c);
      assert UpdateCalls(n) == UpdateCalls(n - 1) + [Updated(n - 1)];
    }
  }

  /**
   * A tick updates every group exactly once, in list order, and posts exactly
   * one event, after all the updates.
   */
  lemma UpdateRoundShape(n: nat, eventType: int)
    ensures |UpdateRound(n, eventType)| == n + 1
    ensures forall i :: 0 <= i < n ==> UpdateRound(n, eventType)[i] == Updated(i)
    ensures UpdateRound(n, eventType)[n] == Posted(eventType)
    ensures forall g :: 0 <= g < n ==> multiset(UpdateRound(n, eventType))[Updated(g)] == 1
    ensures multiset(UpdateRound(n, eventType))[Posted(eventType)] == 1
  {
    forall g | 0 <= g < n
      ensures multiset(UpdateRound(n, eventType))[Updated(g)] == 1
    {
      UpdateCallsOnce(n, Updated(g));
    }
    UpdateCallsOnce(n, Posted(eventType));
  }

  /** `init` calls `create` exactly once on each group, in list order. */
  lemma {:induction false} CreateRoundOnce(n: nat, g: nat)
    ensures multiset(CreateRound(n))[Created(g)] == if g < n then 1 else 0
    ensures forall i :: 0 <= i < n ==> CreateRound(n)[i] == Created(i)
  {
    if n > 0 {
      CreateRoundOnce(n - 1, g);
      assert CreateRound(n) == CreateRound(n - 1) + [Created(n - 1)];
    }
  }

  /** k ticks post exactly k update events. */
  lemma {:induction false} OnePostPerTick(n: nat, eventType: int, k: nat)
    ensures multiset(Ticks(n, eventType, k))[Posted(eventType)] == k
  {
    if k > 0 {
      OnePostPerTick(n, eventType, k - 1);
      UpdateRoundShape(n, eventType);
    }
  }

  /** The calls of k ticks in a row. */
  function Ticks(n: nat, eventType: int, k: nat): seq<Call>
  {
    if k == 0 then [] else Ticks(n, eventType, k - 1) + UpdateRound(n, eventType)
  }

  /** The life cycle of the tests: three groups, one `init`, two ticks and a `quit`. */
  method LifeCycle(perimeter: Rect)
  {
    var model := new Model([7, 7, 7]);
    assert !model.Initialized();
    var ok := model.Update();
    assert !ok && model.calls == [];
    model.Init(perimeter);
    assert model.Initialized() && |model.groups.value| == 3;
    assert model.calls == [Created(0), Created(1), Created(2)];
    ok := model.Update();
    ok := model.Update();
    assert model.calls == [Created(0), Created(1), Created(2),
                           Updated(0), Updated(1), Updated(2), Posted(0),
                           Updated(0), Updated(1), Updated(2), Posted(0)];
    model.Quit();
    assert !model.Initialized() && |model.groups.value| == 3;
  }
}
