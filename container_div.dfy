/**
 * The ContainerDiv custom element: its transition duration, its attribute
 * bag (owned and updated by the host) and its inline style, which the
 * element's lifecycle callbacks update in place.
 */
module ContainerDivs {
  import opened Wrappers
  import opened Tables
  import opened Reconciler
  import Decimal

  /** The transition duration, in milliseconds, used when the constructor is given none. */
  const DefaultTransitionMs: int := 300

  /**
   * The duration the constructor keeps: its argument when that is truthy,
   * the default when it is absent or 0.
   */
  function TransitionMsFor(arg: Option<int>): (ms: int)
    ensures ms != 0
    ensures arg.Some? && arg.value != 0 ==> ms == arg.value
    ensures arg.None? || arg.value == 0 ==> ms == DefaultTransitionMs
  {
    if arg.Some? && arg.value != 0 then arg.value else DefaultTransitionMs
  }

  /** The transition declaration written at connection time. */
  function TransitionValue(ms: int): (v: string)
    ensures |v| > 6 && v[..4] == "all " && v[|v| - 2..] == "ms"
    ensures v[4..|v| - 2] == Decimal.IntToString(ms)
  {
    "all " + Decimal.IntToString(ms) + "ms"
  }

  /** Different durations give different transition declarations. */
  lemma TransitionValueInjective(m: int, n: int)
    requires TransitionValue(m) == TransitionValue(n)
    ensures m == n
  {
    var v := TransitionValue(m);
    assert v[4..|v| - 2] == Decimal.IntToString(m);
    assert TransitionValue(n)[4..|v| - 2] == Decimal.IntToString(n);
    Decimal.IntToStringInjective(m, n);
  }

  /**
   * What connecting leaves: the element is a flex container with the
   * transition, the managed properties and "direction" follow the
   * attributes, and every other property is as it was.
   */
  lemma ConnectedStyle(s: Style, attrs: Attrs, ms: int)
    ensures Lookup(Reconcile(s[Display := "flex"][Transition := TransitionValue(ms)], attrs), Display) == Some("flex")
    ensures Lookup(Reconcile(s[Display := "flex"][Transition := TransitionValue(ms)], attrs), Transition) == Some(TransitionValue(ms))
    ensures Settled(Reconcile(s[Display := "flex"][Transition := TransitionValue(ms)], attrs), attrs)
    ensures forall k :: k !in ManagedProps() && k !in {Direction, Display, Transition} ==>
      Lookup(Reconcile(s[Display := "flex"][Transition := TransitionValue(ms)], attrs), k) == Lookup(s, k)
  {
    var connected := s[Display := "flex"][Transition := TransitionValue(ms)];
    ReconcileFrame(connected, attrs, Display);
    ReconcileFrame(connected, attrs, Transition);
    ReconcileSettles(connected, attrs);
    forall k | k !in ManagedProps() && k !in {Direction, Display, Transition}
      ensures Lookup(Reconcile(connected, attrs), k) == Lookup(s, k)
    {
      ReconcileFrame(connected, attrs, k);
    }
  }

  class ContainerDiv {
    /** The element's attributes; the host adds, changes and removes them. */
    var attrs: Attrs
    /** The element's inline style declaration. */
    var style: Style
    /** The transition duration; only the constructor sets it. */
    const transitionMs: int

    /** The style agrees with the attributes, so reconciling again would change nothing. */
    predicate InSync()
      reads this
    {
      Settled(style, attrs)
    }

    constructor (transitionMs: Option<int>)
      ensures this.transitionMs == TransitionMsFor(transitionMs)
      ensures attrs == map[] && style == map[]
    {
      this.transitionMs := TransitionMsFor(transitionMs);
      attrs := map[];
      style := map[];
    }

    /** One step of updateAttributes: write, or clear, every property the attribute controls. */
    method ApplySizeAttribute(attr: SizeAttr)
      modifies this`style
      ensures style == WriteAll(old(style), AttrMap(attr), Effect(attrs, attr))
    {
      var size := Lookup(attrs, AttrName(attr));
      var props := AttrMap(attr);
      ghost var effect := Effect(attrs, attr);
      var j := 0;
      if size.Some? && size.value != "" && ParseSize(size.value).Some? {
        var value := Default(ParseSize(size.value).value);
        assert effect == Some(value);
        while j < |props|
          invariant 0 <= j <= |props|
          invariant style == WriteAll(old(style), props[..j], effect)
        {
          style := style[props[j] := value];
          assert props[..j + 1][..j] == props[..j];
          j := j + 1;
        }
      } else {
        assert effect == None;
        while j < |props|
          invariant 0 <= j <= |props|
          invariant style == WriteAll(old(style), props[..j], effect)
        {
          style := style - {props[j]};
          assert props[..j + 1][..j] == props[..j];
          j := j + 1;
        }
      }
      assert props[..j] == props;
    }

    /** The loop of updateAttributes over the spacing attributes. */
    method ApplySizeAttributes()
      modifies this`style
      ensures style == Run(old(style), AttrMap, Steps(attrs), SizeAttributes())
    {
      var sizeAttributes := SizeAttributes();
      var i := 0;
      while i < |sizeAttributes|
        invariant 0 <= i <= |sizeAttributes|
        invariant style == Run(old(style), AttrMap, Steps(attrs), sizeAttributes[..i])
      {
        ApplySizeAttribute(sizeAttributes[i]);
        assert sizeAttributes[..i + 1][..i] == sizeAttributes[..i];
        i := i + 1;
      }
      assert sizeAttributes[..i] == sizeAttributes;
    }

    /** updateAttributes: rewrite every managed property and "direction" from the attributes. */
    method UpdateAttributes()
      modifies this`style
      ensures style == Reconcile(old(style), attrs)
      ensures InSync()
    {
      ghost var s0 := style;
      ApplySizeAttributes();
      style := style[Direction := if Lookup(attrs, "direction") == Some("row") then "row" else "column"];
      ReconcileSettles(s0, attrs);
    }

    /** connectedCallback: make the element a flex container with its transition, then reconcile. */
    method ConnectedCallback()
      modifies this`style
      ensures style == Reconcile(old(style)[Display := "flex"][Transition := TransitionValue(transitionMs)], attrs)
      ensures InSync()
    {
      style := style[Display := "flex"][Transition := TransitionValue(transitionMs)];
      UpdateAttributes();
    }

    /** attributeChangedCallback: reconcile the whole style again, whatever changed. */
    method AttributeChangedCallback()
      modifies this`style
      ensures style == Reconcile(old(style), attrs)
      ensures InSync()
    {
      UpdateAttributes();
    }
  }
}
