/**
 * The platform's groupStates, restricted to Alok states and the selector
 * WithoutOwner: input and output states are partitioned by grouping key, the
 * groups of keys met among the inputs coming first (in order of first
 * occurrence), followed by the groups whose key occurs only among the outputs.
 */
module Grouping {
  import opened AlokModel

  /** The grouping key of every state, position by position. */
  function Keys(xs: seq<AlokState>): (ks: seq<AlokState>)
    ensures |ks| == |xs|
    ensures forall i :: 0 <= i < |xs| ==> ks[i] == WithoutOwner(xs[i])
  {
    seq(|xs|, i requires 0 <= i < |xs| => WithoutOwner(xs[i]))
  }

  predicate Distinct(ks: seq<AlokState>)
  {
    forall i, j :: 0 <= i < j < |ks| ==> ks[i] != ks[j]
  }

  /** The keys of ks without repetition, each kept where it first occurs. */
  function Dedup(ks: seq<AlokState>): (r: seq<AlokState>)
    ensures Distinct(r)
    ensures forall k :: k in r <==> k in ks
    ensures ks != [] ==> r != [] && r[0] == ks[0]
    decreases |ks|
  {
    if ks == [] then []
    else
      var front, last := ks[..|ks| - 1], ks[|ks| - 1];
      assert ks == front + [last];
      var d := Dedup(front);
      assert front != [] ==> front[0] == ks[0];
      if last in d then d else d + [last]
  }

  /** The keys of ks that are not in excluded, in their order in ks. */
  function Without(ks: seq<AlokState>, excluded: seq<AlokState>): (r: seq<AlokState>)
    ensures forall k :: k in r <==> k in ks && k !in excluded
    ensures Distinct(ks) ==> Distinct(r)
  {
    if ks == [] then []
    else
      var rest := Without(ks[1..], excluded);
      assert forall k :: k in ks <==> k == ks[0] || k in ks[1..];
      if ks[0] in excluded then rest else [ks[0]] + rest
  }

  /** The states of xs whose grouping key is k, in their order in xs. */
  function Select(xs: seq<AlokState>, k: AlokState): (r: seq<AlokState>)
    ensures forall s :: s in r <==> s in xs && WithoutOwner(s) == k
    ensures |r| <= |xs|
  {
    if xs == [] then []
    else
      assert forall s :: s in xs <==> s == xs[0] || s in xs[1..];
      (if WithoutOwner(xs[0]) == k then [xs[0]] else []) + Select(xs[1..], k)
  }

  /** The number of states of xs in group k is the multiplicity of k among their keys. */
  lemma {:induction false} SelectCountsKey(xs: seq<AlokState>, k: AlokState)
    ensures |Select(xs, k)| == multiset(Keys(xs))[k]
  {
    if xs != [] {
      assert Keys(xs) == [WithoutOwner(xs[0])] + Keys(xs[1..]);
      SelectCountsKey(xs[1..], k);
    }
  }

  /** One group of the partition: the inputs and outputs whose key is groupingKey. */
  datatype InOutGroup = InOutGroup(inputs: seq<AlokState>, outputs: seq<AlokState>, groupingKey: AlokState)

  function GroupOf(ins: seq<AlokState>, outs: seq<AlokState>, k: AlokState): InOutGroup
  {
    InOutGroup(Select(ins, k), Select(outs, k), k)
  }

  /** The keys of the groups, input keys first, each key once. */
  function GroupKeys(ins: seq<AlokState>, outs: seq<AlokState>): (r: seq<AlokState>)
    ensures Distinct(r)
    ensures forall k :: k in r <==> k in Keys(ins) || k in Keys(outs)
    ensures ins != [] ==> r != [] && r[0] == WithoutOwner(ins[0])
    ensures forall i, j :: 0 <= i < j < |r| && r[j] in Keys(ins) ==> r[i] in Keys(ins)
  {
    var inKeys := Dedup(Keys(ins));
    var outOnly := Without(Dedup(Keys(outs)), inKeys);
    assert forall i, j :: 0 <= i < |inKeys| && 0 <= j < |outOnly| ==> inKeys[i] != outOnly[j] by {
      forall i, j | 0 <= i < |inKeys| && 0 <= j < |outOnly|
        ensures inKeys[i] != outOnly[j]
      {
        assert outOnly[j] in outOnly;
      }
    }
    var r := inKeys + outOnly;
    assert forall i :: 0 <= i < |r| ==> (r[i] in Keys(ins) <==> i < |inKeys|) by {
      forall i | 0 <= i < |r|
        ensures r[i] in Keys(ins) <==> i < |inKeys|
      {
        if i < |inKeys| { assert r[i] in inKeys; } else { assert r[i] in outOnly; }
      }
    }
    assert ins != [] ==> Keys(ins)[0] == WithoutOwner(ins[0]);
    r
  }

  /** A key met among the states has a state that carries it. */
  lemma KeyHasState(xs: seq<AlokState>, k: AlokState)
    requires k in Keys(xs)
    ensures exists s :: s in xs && WithoutOwner(s) == k
  {
    var i :| 0 <= i < |xs| && Keys(xs)[i] == k;
    assert xs[i] in xs;
  }

  /** A state's key is among the keys. */
  lemma StateHasKey(xs: seq<AlokState>, s: AlokState)
    requires s in xs
    ensures WithoutOwner(s) in Keys(xs)
  {
    var i :| 0 <= i < |xs| && xs[i] == s;
    assert Keys(xs)[i] == WithoutOwner(s);
  }

  /** The group of a key met among the states is not empty. */
  lemma KeyedGroupNotEmpty(ins: seq<AlokState>, outs: seq<AlokState>, k: AlokState)
    requires k in Keys(ins) || k in Keys(outs)
    ensures Select(ins, k) != [] || Select(outs, k) != []
  {
    if k in Keys(ins) {
      KeyHasState(ins, k);
      var s :| s in ins && WithoutOwner(s) == k;
      assert s in Select(ins, k);
    } else {
      KeyHasState(outs, k);
      var s :| s in outs && WithoutOwner(s) == k;
      assert s in Select(outs, k);
    }
  }

  /** The groups of a list of distinct keys covering every state form a partition. */
  lemma GroupsPartition(ins: seq<AlokState>, outs: seq<AlokState>, keys: seq<AlokState>, r: seq<InOutGroup>)
    requires Distinct(keys)
    requires forall k :: k in keys <==> k in Keys(ins) || k in Keys(outs)
    requires |r| == |keys| && forall i :: 0 <= i < |r| ==> r[i] == GroupOf(ins, outs, keys[i])
    ensures forall g :: g in r ==> g.inputs != [] || g.outputs != []
    ensures forall s :: s in ins + outs ==> GroupOf(ins, outs, WithoutOwner(s)) in r
    ensures forall i :: 0 <= i < |r| ==> (r[i].inputs != [] <==> keys[i] in Keys(ins))
  {
    forall i | 0 <= i < |r|
      ensures r[i].inputs != [] <==> keys[i] in Keys(ins)
    {
      if r[i].inputs != [] {
        assert r[i].inputs[0] in Select(ins, keys[i]);
        StateHasKey(ins, r[i].inputs[0]);
      }
      if keys[i] in Keys(ins) {
        KeyHasState(ins, keys[i]);
        var s :| s in ins && WithoutOwner(s) == keys[i];
        assert s in r[i].inputs;
      }
    }
    forall g | g in r
      ensures g.inputs != [] || g.outputs != []
    {
      var i :| 0 <= i < |r| && r[i] == g;
      assert keys[i] in keys;
      KeyedGroupNotEmpty(ins, outs, keys[i]);
    }
    forall s | s in ins + outs
      ensures GroupOf(ins, outs, WithoutOwner(s)) in r
    {
      if s in ins { StateHasKey(ins, s); } else { StateHasKey(outs, s); }
      var i :| 0 <= i < |keys| && keys[i] == WithoutOwner(s);
      assert r[i] == GroupOf(ins, outs, WithoutOwner(s));
    }
  }

  /**
   * The partition of the transaction's states into groups: every group is the
   * full set of inputs and outputs sharing its key and is not empty, every state
   * lies in the group of its own key, and no key has two groups. The groups
   * holding inputs come before those holding only outputs, the group of the
   * first input leading.
   */
  function GroupStates(ins: seq<AlokState>, outs: seq<AlokState>): (r: seq<InOutGroup>)
    ensures forall g :: g in r ==> g == GroupOf(ins, outs, g.groupingKey)
    ensures forall g :: g in r ==> g.inputs != [] || g.outputs != []
    ensures forall s :: s in ins + outs ==> GroupOf(ins, outs, WithoutOwner(s)) in r
    ensures forall i, j :: 0 <= i < j < |r| ==> r[i].groupingKey != r[j].groupingKey
    ensures forall i, j :: 0 <= i < j < |r| && r[j].inputs != [] ==> r[i].inputs != []
    ensures ins != [] ==> r != [] && r[0] == GroupOf(ins, outs, WithoutOwner(ins[0]))
  {
    var keys := GroupKeys(ins, outs);
    var r := seq(|keys|, i requires 0 <= i < |keys| => GroupOf(ins, outs, keys[i]));
    GroupsPartition(ins, outs, keys, r);
    r
  }
}
