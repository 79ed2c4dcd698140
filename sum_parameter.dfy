/**
 * A parameter whose value is the sum of a list of child parameters.  The
 * children are objects whose value changes elsewhere; the sum parameter keeps
 * its list free of duplicates and recomputes its value whenever a child is
 * added, removed or reports a change.
 *
 * Listener registration is modelled as the explicit call ChildChanged(), made
 * by whoever changes a child's value.  Values are reals, so the order of the
 * additions does not matter here as it would for doubles.
 */
module SumParameter {
  import opened Wrappers
  import opened ChildList

  /** A child parameter: an object with a value. */
  class Parameter {
    var value: real

    constructor (v: real)
      ensures value == v
    {
      value := v;
    }
  }

  datatype SumError = AlreadyPresent

  /** The values of the children, added up from the first to the last. */
  function SumOf(cs: seq<Parameter>): real
    reads cs
    decreases |cs|
  {
    if cs == [] then 0.0 else SumOf(cs[..|cs| - 1]) + cs[|cs| - 1].value
  }

  /** Adding up two lists one after the other is adding up their concatenation. */
  lemma {:induction false} SumOfConcat(a: seq<Parameter>, b: seq<Parameter>)
    ensures SumOf(a + b) == SumOf(a) + SumOf(b)
    decreases |b|
  {
    if b == [] {
      assert a + b == a;
    } else {
      var b' := b[..|b| - 1];
      assert (a + b)[..|a + b| - 1] == a + b';
      SumOfConcat(a, b');
    }
  }

  /** Removing a present child takes its value off the sum. */
  lemma {:induction false} SumOfWithout(cs: seq<Parameter>, c: Parameter)
    requires c in cs
    ensures SumOf(Without(cs, c)) == SumOf(cs) - c.value
    decreases |cs|
  {
    assert cs == [cs[0]] + cs[1..];
    SumOfConcat([cs[0]], cs[1..]);
    assert [cs[0]][..0] == [];
    if cs[0] != c {
      SumOfWithout(cs[1..], c);
      SumOfConcat([cs[0]], Without(cs[1..], c));
    }
  }

  /** Adding a new child and then removing it gives back the original list and sum. */
  lemma AddThenRemove(cs: seq<Parameter>, c: Parameter)
    requires c !in cs
    ensures Without(cs + [c], c) == cs
    ensures SumOf(cs + [c]) == SumOf(cs) + c.value
  {
    WithoutAppended(cs, c);
    assert (cs + [c])[..|cs|] == cs;
  }

  /** computeGroup: the loop adding every child's value to 0. */
  method ComputeGroup(cs: seq<Parameter>) returns (value: real)
    ensures value == SumOf(cs)
  {
    value := 0.0;
    for i := 0 to |cs|
      invariant value == SumOf(cs[..i])
    {
      assert cs[..i + 1][..i] == cs[..i];
      value := value + cs[i].value;
    }
    assert cs[..|cs|] == cs;
  }

  class SumParameter {
    var children: seq<Parameter>
    var value: real

    /** No child appears twice. */
    predicate Valid()
      reads this
    {
      Distinct(children)
    }

    /** The value is the sum of the children's current values. */
    predicate InSync()
      reads this, children
    {
      value == SumOf(children)
    }

    /** A new sum parameter has no children and the value 0. */
    constructor ()
      ensures Valid() && InSync()
      ensures children == []
    {
      children := [];
      value := 0.0;
    }

    /** refresh: setValue(computeGroup(parameters)). */
    method Refresh()
      modifies this
      ensures children == old(children)
      ensures InSync()
    {
      value := ComputeGroup(children);
    }

    /** The childChanged listener: a child's value changed, so the sum is recomputed. */
    method ChildChanged()
      modifies this
      ensures children == old(children)
      ensures InSync()
    {
      Refresh();
    }

    /** hasChildParameter: list membership. */
    function HasChild(c: Parameter): (r: bool)
      reads this
      ensures r <==> exists i :: 0 <= i < |children| && children[i] == c
    {
      c in children
    }

    /**
     * addChildParameter: a child already in the list is refused and nothing
     * changes; otherwise it goes at the end and the value is recomputed.
     */
    method AddChild(c: Parameter) returns (r: Result<(), SumError>)
      requires Valid()
      modifies this
      ensures Valid()
      ensures r.Failure? <==> c in old(children)
      ensures r.Failure? ==> children == old(children) && value == old(value)
      ensures r.Success? ==> children == old(children) + [c] && InSync()
      ensures r.Success? ==> value == old(SumOf(children)) + c.value
    {
      if c in children {
        return Failure(AlreadyPresent);
      }
      AddThenRemove(children, c);
      children := children + [c];
      Refresh();
      return Success(());
    }

    /**
     * removeChildParameter: true exactly when the child was present, in which
     * case it leaves the list and the value is recomputed; otherwise nothing
     * changes.
     */
    method RemoveChild(c: Parameter) returns (removed: bool)
      requires Valid()
      modifies this
      ensures Valid()
      ensures removed <==> c in old(children)
      ensures !removed ==> children == old(children) && value == old(value)
      ensures removed ==> children == Without(old(children), c) && c !in children && InSync()
      ensures removed ==> value == old(SumOf(children)) - c.value
      ensures forall d :: d != c ==> (d in children <==> d in old(children))
    {
      if c !in children {
        return false;
      }
      WithoutPresent(children, c);
      SumOfWithout(children, c);
      children := Without(children, c);
      Refresh();
      return true;
    }

    /**
     * dispose: every child removed, from the last to the first.  Each removal
     * recomputes the value, so the value ends at 0 unless there was no child
     * to remove.
     */
    method Dispose()
      requires Valid()
      modifies this
      ensures Valid()
      ensures children == []
      ensures old(children) != [] ==> value == 0.0
      ensures old(children) == [] ==> value == old(value)
    {
      var i := |children| - 1;
      while i >= 0
        invariant -1 <= i < |children| && i == |children| - 1
        invariant children == old(children)[..i + 1]
        invariant Valid()
        invariant i < |old(children)| - 1 ==> value == SumOf(children)
        invariant old(children) == [] ==> value == old(value)
        decreases i + 1
      {
        var c := children[i];
        assert children == children[..i] + [c];
        AddThenRemove(children[..i], c);
        var removed := RemoveChild(c);
        assert old(children)[..i + 1][..i] == old(children)[..i];
        i := i - 1;
      }
    }
  }
}
