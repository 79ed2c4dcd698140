/**
 * A group proxy parameter: a lead parameter, an `enabled` switch and a list of
 * child parameters.  While enabled, a change of the lead is pushed to every
 * child as a normalised value; a change of a child that the proxy did not make
 * turns `enabled` off.  The flag `isUs` tells the listeners apart from the
 * changes the proxy makes itself.
 *
 * Each listener is a method called right after the change it listens to, and a
 * change the proxy makes calls the listeners registered at that moment, so the
 * nested calls of the source are nested calls here.
 */
module SyncParameter {
  import opened Wrappers
  import opened ChildList

  /** A normalised parameter: an object holding a value in [0, 1]. */
  class NormalizedParameter {
    var normalized: real

    constructor (v: real)
      requires 0.0 <= v <= 1.0
      ensures normalized == v
    {
      normalized := v;
    }
  }

  datatype SyncError = AlreadyPresent

  /** Every child holds the value v. */
  ghost predicate AllSetTo(cs: seq<NormalizedParameter>, v: real)
    reads cs
  {
    forall k :: 0 <= k < |cs| ==> cs[k].normalized == v
  }

  class SyncParameter {
    /** The lead parameter. */
    const parameter: NormalizedParameter
    var enabled: bool
    var isUs: bool
    var children: seq<NormalizedParameter>

    /** No child appears twice, and the lead value is normalised. */
    predicate Valid()
      reads this, parameter
    {
      Distinct(children) && 0.0 <= parameter.normalized <= 1.0
    }

    /** A new proxy is enabled, has no children and is not inside a push. */
    constructor (lead: NormalizedParameter)
      requires 0.0 <= lead.normalized <= 1.0
      ensures Valid()
      ensures parameter == lead && enabled && !isUs && children == []
    {
      parameter := lead;
      enabled := true;
      isUs := false;
      children := [];
    }

    /**
     * addChildParameter: a child already in the list is refused and nothing
     * changes; otherwise it goes at the end and, when enabled, takes the lead's
     * normalised value.  Its listener is registered only afterwards, so that
     * setting does not turn sync off.
     */
    method AddChild(c: NormalizedParameter) returns (r: Result<(), SyncError>)
      requires Valid()
      modifies this, c
      ensures Valid()
      ensures r.Failure? <==> c in old(children)
      ensures r.Failure? ==> children == old(children) && c.normalized == old(c.normalized)
      ensures r.Success? ==> children == old(children) + [c]
      ensures r.Success? && enabled ==> c.normalized == parameter.normalized
      ensures r.Success? && !enabled ==> c.normalized == old(c.normalized)
      ensures enabled == old(enabled) && isUs == old(isUs)
      ensures c != parameter ==> parameter.normalized == old(parameter.normalized)
    {
      if c in children {
        return Failure(AlreadyPresent);
      }
      children := children + [c];
      if enabled {
        c.normalized := parameter.normalized;
      }
      return Success(());
    }

    /**
     * removeChildParameter: true exactly when the child was present, in which
     * case it leaves the list; otherwise nothing changes.
     */
    method RemoveChild(c: NormalizedParameter) returns (removed: bool)
      requires Valid()
      modifies this
      ensures Valid()
      ensures removed <==> c in old(children)
      ensures !removed ==> children == old(children)
      ensures removed ==> children == Without(old(children), c) && c !in children
      ensures forall d :: d != c ==> (d in children <==> d in old(children))
      ensures enabled == old(enabled) && isUs == old(isUs)
    {
      if c !in children {
        return false;
      }
      WithoutPresent(children, c);
      children := Without(children, c);
      return true;
    }

    /**
     * pushToChildren: every child takes the lead's normalised value; each
     * setting calls that child's listener, which does nothing while isUs holds.
     */
    method PushToChildren()
      requires Valid() && isUs
      modifies this, children
      ensures unchanged(this) && parameter.normalized == old(parameter.normalized)
      ensures AllSetTo(children, old(parameter.normalized))
      decreases 2
    {
      var v := parameter.normalized;
      for i := 0 to |children|
        invariant unchanged(this) && Valid()
        invariant parameter.normalized == v
        invariant forall k :: 0 <= k < i ==> children[k].normalized == v
      {
        children[i].normalized := v;
        ChildChanged();
      }
    }

    /**
     * The childChanged listener: a change not made by the proxy turns enabled
     * off (whose own listener then does nothing, because isUs holds); a change
     * made during a push is ignored.
     */
    method ChildChanged()
      requires Valid()
      modifies this, children
      ensures Valid() && children == old(children)
      ensures forall k :: 0 <= k < |children| ==> unchanged(children[k])
      ensures old(isUs) ==> unchanged(this)
      ensures !old(isUs) ==> !enabled
      ensures isUs == old(isUs)
      decreases if isUs then 1 else 4
    {
      if !isUs {
        isUs := true;
        enabled := false;
        EnabledChanged();
        isUs := false;
      }
    }

    /**
     * The enabledChanged listener: turning sync on outside a push sends the
     * lead's value to every child.
     */
    method EnabledChanged()
      requires Valid()
      modifies this, children
      ensures children == old(children) && enabled == old(enabled) && isUs == old(isUs)
      ensures !old(isUs) && enabled ==> AllSetTo(children, parameter.normalized)
      ensures old(isUs) || !enabled ==> forall k :: 0 <= k < |children| ==> unchanged(children[k])
      ensures Valid() && parameter.normalized == old(parameter.normalized)
      decreases if isUs then 0 else 3
    {
      if !isUs && enabled {
        isUs := true;
        PushToChildren();
        isUs := false;
      }
    }

    /**
     * The internalChanged listener: a change of the lead, while sync is on and
     * outside a push, is sent to every child.
     */
    method InternalChanged()
      requires Valid()
      modifies this, children
      ensures children == old(children) && enabled == old(enabled) && isUs == old(isUs)
      ensures !old(isUs) && enabled ==> AllSetTo(children, parameter.normalized)
      ensures old(isUs) || !enabled ==> forall k :: 0 <= k < |children| ==> unchanged(children[k])
      ensures Valid() && parameter.normalized == old(parameter.normalized)
      decreases if isUs then 0 else 3
    {
      if !isUs && enabled {
        isUs := true;
        PushToChildren();
        isUs := false;
      }
    }

    /** The lead is set by a user: its listener pushes the new value when sync is on. */
    method SetLead(v: real)
      requires Valid() && !isUs && 0.0 <= v <= 1.0
      modifies this, parameter, children
      ensures Valid() && children == old(children) && enabled == old(enabled) && !isUs
      ensures parameter.normalized == v
      ensures enabled ==> AllSetTo(children, v)
      ensures !enabled ==> forall k :: 0 <= k < |children| ==> children[k] == parameter || unchanged(children[k])
    {
      parameter.normalized := v;
      InternalChanged();
    }

    /** A child is set by a user: its listener turns sync off. */
    method SetChild(c: NormalizedParameter, v: real)
      requires Valid() && !isUs && c in children && c != parameter && 0.0 <= v <= 1.0
      modifies this, c, children
      ensures Valid() && children == old(children) && !isUs
      ensures !enabled && c.normalized == v
      ensures forall k :: 0 <= k < |children| ==> children[k] == c || unchanged(children[k])
    {
      c.normalized := v;
      ChildChanged();
    }

    /** The switch is set by a user: turning it on pushes the lead's value to every child. */
    method SetEnabled(on: bool)
      requires Valid() && !isUs
      modifies this, children
      ensures Valid() && children == old(children) && !isUs && enabled == on
      ensures on ==> AllSetTo(children, parameter.normalized)
      ensures !on ==> forall k :: 0 <= k < |children| ==> unchanged(children[k])
    {
      enabled := on;
      EnabledChanged();
    }

    /** dispose: every child removed, from the last to the first. */
    method Dispose()
      requires Valid()
      modifies this
      ensures Valid()
      ensures children == []
      ensures enabled == old(enabled) && isUs == old(isUs)
    {
      var i := |children| - 1;
      while i >= 0
        invariant -1 <= i < |children| && i == |children| - 1
        invariant children == old(children)[..i + 1]
        invariant Valid()
        invariant enabled == old(enabled) && isUs == old(isUs)
        decreases i + 1
      {
        var c := children[i];
        assert children == children[..i] + [c];
        WithoutAppended(children[..i], c);
        var removed := RemoveChild(c);
        assert old(children)[..i + 1][..i] == old(children)[..i];
        i := i - 1;
      }
    }
  }
}
