/**
 * ContainerDiv's attribute-to-style reconciliation as pure functions:
 * one loop step per spacing attribute, each writing or clearing the CSS
 * properties it controls, followed by the write of the "direction"
 * property. A style property that is cleared is a key that is absent.
 */
module Reconciler {
  import opened Wrappers
  import opened Tables

  /** The element's attributes: a name that is absent is one getAttribute reports as null. */
  type Attrs = map<string, string>
  /** The element's inline style declaration. */
  type Style = map<Prop, string>

  function Lookup<K>(m: map<K, string>, k: K): Option<string>
  {
    if k in m then Some(m[k]) else None
  }

  /** Two maps that agree on every key are equal. */
  lemma LookupExtensional<K>(m1: map<K, string>, m2: map<K, string>)
    requires forall k :: Lookup(m1, k) == Lookup(m2, k)
    ensures m1 == m2
  {
    assert forall k :: k in m1 <==> k in m2 by {
      forall k ensures k in m1 <==> k in m2 {
        assert Lookup(m1, k) == Lookup(m2, k);
      }
    }
    forall k | k in m1 ensures m1[k] == m2[k] {
      assert Lookup(m1, k) == Lookup(m2, k);
    }
  }

  /** The token an attribute value names, when the value is present, non-empty and in the token list. */
  function Recognize(v: Option<string>): (r: Option<Size>)
    ensures r.Some? ==> v == Some(SizeName(r.value))
    ensures r.None? ==> v.None? || forall t: Size :: SizeName(t) != v.value
  {
    if v.Some? && v.value != "" then ParseSize(v.value) else None
  }

  /**
   * What the loop step for attribute a writes into each of the properties
   * it controls: the default of the token the attribute names, or nothing
   * (the property is cleared) when the attribute is absent, empty or not a token.
   */
  function Effect(attrs: Attrs, a: SizeAttr): (r: Option<string>)
    ensures Lookup(attrs, AttrName(a)) == None ==> r == None
    ensures Lookup(attrs, AttrName(a)) == Some("") ==> r == None
  {
    match Recognize(Lookup(attrs, AttrName(a)))
    case Some(t) => Some(Default(t))
    case None => None
  }

  /**
   * An attribute whose value spells a token writes that token's default;
   * any other value, and no value at all, clears.
   */
  lemma EffectMeaning(attrs: Attrs, a: SizeAttr, t: Size)
    ensures Lookup(attrs, AttrName(a)) == Some(SizeName(t)) <==> Effect(attrs, a) == Some(Default(t))
    ensures (forall u: Size :: Lookup(attrs, AttrName(a)) != Some(SizeName(u))) <==> Effect(attrs, a) == None
  {
    if Effect(attrs, a) == Some(Default(t)) {
      var v := Recognize(Lookup(attrs, AttrName(a)));
      DefaultInjective(v.value, t);
    }
  }

  /** The write each attribute's loop step makes, for the given attributes. */
  function Steps(attrs: Attrs): SizeAttr -> Option<string>
  {
    a => Effect(attrs, a)
  }

  /** Assigning a value to one style property, or clearing it. */
  function Put(s: Style, k: Prop, e: Option<string>): Style
  {
    if e.Some? then s[k := e.value] else s - {k}
  }

  /** The inner loop: e written to each property of props, in order. */
  function WriteAll(s: Style, props: seq<Prop>, e: Option<string>): (r: Style)
    ensures forall k :: k !in props ==> Lookup(r, k) == Lookup(s, k)
  {
    if props == [] then s
    else Put(WriteAll(s, props[..|props| - 1], e), props[|props| - 1], e)
  }

  /**
   * The outer loop over the attributes xs, in order, where attribute a's
   * step writes step(a) into each property of controls(a).
   */
  function Run(s: Style, controls: SizeAttr -> seq<Prop>, step: SizeAttr -> Option<string>, xs: seq<SizeAttr>): Style
  {
    if xs == [] then s
    else
      var a := xs[|xs| - 1];
      WriteAll(Run(s, controls, step, xs[..|xs| - 1]), controls(a), step(a))
  }

  /** The value written to the "direction" style property. */
  function DirectionValue(attrs: Attrs): (d: string)
    ensures d == "row" <==> Lookup(attrs, "direction") == Some("row")
    ensures d == "row" || d == "column"
  {
    if Lookup(attrs, "direction") == Some("row") then "row" else "column"
  }

  /** The whole of updateAttributes, as a function of the old style and the attributes. */
  function Reconcile(s: Style, attrs: Attrs): (r: Style)
    ensures Lookup(r, Direction) == Some(DirectionValue(attrs))
  {
    Run(s, AttrMap, Steps(attrs), SizeAttributes())[Direction := DirectionValue(attrs)]
  }

  /** After the inner loop, a written property holds e and every other property is untouched. */
  lemma {:induction false} WriteAllAt(s: Style, props: seq<Prop>, e: Option<string>, k: Prop)
    ensures Lookup(WriteAll(s, props, e), k) == if k in props then e else Lookup(s, k)
  {
    if props != [] {
      var init := props[..|props| - 1];
      WriteAllAt(s, init, e, k);
      assert props == init + [props[|props| - 1]];
    }
  }

  /** Last writer wins: a property's value after the loop is decided by the last attribute whose map holds it. */
  lemma {:induction false} RunLastWriter(s: Style, controls: SizeAttr -> seq<Prop>, step: SizeAttr -> Option<string>, xs: seq<SizeAttr>, k: Prop, i: nat)
    requires i < |xs| && k in controls(xs[i])
    requires forall j :: i < j < |xs| ==> k !in controls(xs[j])
    ensures Lookup(Run(s, controls, step, xs), k) == step(xs[i])
  {
    var n := |xs| - 1;
    var init := xs[..n];
    WriteAllAt(Run(s, controls, step, init), controls(xs[n]), step(xs[n]), k);
    if i < n {
      RunLastWriter(s, controls, step, init, k, i);
    }
  }

  /** A property that no attribute of xs controls keeps its old value through the loop. */
  lemma {:induction false} RunUntouched(s: Style, controls: SizeAttr -> seq<Prop>, step: SizeAttr -> Option<string>, xs: seq<SizeAttr>, k: Prop)
    requires forall j :: 0 <= j < |xs| ==> k !in controls(xs[j])
    ensures Lookup(Run(s, controls, step, xs), k) == Lookup(s, k)
  {
    if xs != [] {
      var n := |xs| - 1;
      var init := xs[..n];
      WriteAllAt(Run(s, controls, step, init), controls(xs[n]), step(xs[n]), k);
      RunUntouched(s, controls, step, init, k);
    }
  }

  /** Every managed property ends up as its deciding attribute's step left it. */
  lemma ReconcileManaged(s: Style, attrs: Attrs, k: Prop)
    requires k in ManagedProps()
    ensures Lookup(Reconcile(s, attrs), k) == Effect(attrs, Decider(k))
  {
    RunLastWriter(s, AttrMap, Steps(attrs), SizeAttributes(), k, LastWriter(k));
    DeciderIsLastWriter(k);
  }

  /** "direction" is "row" exactly when the attribute is exactly "row", and "column" otherwise, absent included. */
  lemma ReconcileDirection(s: Style, attrs: Attrs)
    ensures Lookup(Reconcile(s, attrs), Direction) == Some(if Lookup(attrs, "direction") == Some("row") then "row" else "column")
  {
  }

  /** Frame: a property that is neither managed nor "direction" is left as it was. */
  lemma ReconcileFrame(s: Style, attrs: Attrs, k: Prop)
    requires k !in ManagedProps() && k != Direction
    ensures Lookup(Reconcile(s, attrs), k) == Lookup(s, k)
  {
    var sa := SizeAttributes();
    forall j | 0 <= j < |sa| ensures k !in AttrMap(sa[j]) {
      ManagedIsUnion(k);
    }
    RunUntouched(s, AttrMap, Steps(attrs), sa, k);
  }

  /** The updated style, one property at a time. */
  lemma ReconcileAt(s: Style, attrs: Attrs, k: Prop)
    ensures Lookup(Reconcile(s, attrs), k) ==
      if k == Direction then Some(DirectionValue(attrs))
      else if k in ManagedProps() then Effect(attrs, Decider(k))
      else Lookup(s, k)
  {
    if k in ManagedProps() {
      ReconcileManaged(s, attrs, k);
    } else if k != Direction {
      ReconcileFrame(s, attrs, k);
    }
  }

  /**
   * The style declared by the attributes alone: each managed property the
   * attributes give a value, and "direction".
   */
  function DeclaredStyle(attrs: Attrs): (d: Style)
    ensures d.Keys <= ManagedProps() + {Direction}
    ensures Direction in d
  {
    var m := map k | k in ManagedProps() && Effect(attrs, Decider(k)).Some? :: Effect(attrs, Decider(k)).value;
    m[Direction := DirectionValue(attrs)]
  }

  /** The closed form, one property at a time. */
  lemma DeclaredAt(s: Style, attrs: Attrs, k: Prop)
    ensures Lookup((s - (ManagedProps() + {Direction})) + DeclaredStyle(attrs), k) ==
      if k == Direction then Some(DirectionValue(attrs))
      else if k in ManagedProps() then Effect(attrs, Decider(k))
      else Lookup(s, k)
  {
  }

  /**
   * updateAttributes in closed form: the unmanaged part of the old style,
   * overlaid with the style the attributes declare.
   */
  lemma ReconcileClosedForm(s: Style, attrs: Attrs)
    ensures Reconcile(s, attrs) == (s - (ManagedProps() + {Direction})) + DeclaredStyle(attrs)
  {
    var r, c := Reconcile(s, attrs), (s - (ManagedProps() + {Direction})) + DeclaredStyle(attrs);
    forall k ensures Lookup(r, k) == Lookup(c, k) {
      ReconcileAt(s, attrs, k);
      DeclaredAt(s, attrs, k);
    }
    LookupExtensional(r, c);
  }

  /** The managed properties and "direction" after the update do not depend on the style before it. */
  lemma ReconcileHistoryIndependent(s1: Style, s2: Style, attrs: Attrs, k: Prop)
    requires k in ManagedProps() || k == Direction
    ensures Lookup(Reconcile(s1, attrs), k) == Lookup(Reconcile(s2, attrs), k)
  {
    ReconcileAt(s1, attrs, k);
    ReconcileAt(s2, attrs, k);
  }

  /**
   * The style agrees with the attributes: every managed property holds what
   * its deciding attribute writes, and "direction" what the attribute asks for.
   */
  predicate Settled(s: Style, attrs: Attrs)
  {
    && (forall k :: k in ManagedProps() ==> Lookup(s, k) == Effect(attrs, Decider(k)))
    && Lookup(s, Direction) == Some(DirectionValue(attrs))
  }

  /** The update leaves a settled style. */
  lemma ReconcileSettles(s: Style, attrs: Attrs)
    ensures Settled(Reconcile(s, attrs), attrs)
  {
    forall k | k in ManagedProps() ensures Lookup(Reconcile(s, attrs), k) == Effect(attrs, Decider(k)) {
      ReconcileManaged(s, attrs, k);
    }
  }

  /** The settled styles are exactly the ones the update leaves unchanged. */
  lemma SettledIsFixpoint(s: Style, attrs: Attrs)
    ensures Settled(s, attrs) <==> Reconcile(s, attrs) == s
  {
    if Settled(s, attrs) {
      forall k ensures Lookup(Reconcile(s, attrs), k) == Lookup(s, k) {
        ReconcileAt(s, attrs, k);
      }
      LookupExtensional(Reconcile(s, attrs), s);
    } else {
      ReconcileSettles(s, attrs);
    }
  }

  /** Running the update a second time with the same attributes changes nothing. */
  lemma ReconcileIdempotent(s: Style, attrs: Attrs)
    ensures Reconcile(Reconcile(s, attrs), attrs) == Reconcile(s, attrs)
  {
    ReconcileSettles(s, attrs);
    SettledIsFixpoint(Reconcile(s, attrs), attrs);
  }

  /** Attributes the element does not observe have no influence on its style. */
  lemma ReconcileReadsObservedOnly(s: Style, attrs1: Attrs, attrs2: Attrs)
    requires forall n :: n in ObservedAttributes() ==> Lookup(attrs1, n) == Lookup(attrs2, n)
    ensures Reconcile(s, attrs1) == Reconcile(s, attrs2)
  {
    forall k ensures Lookup(Reconcile(s, attrs1), k) == Lookup(Reconcile(s, attrs2), k) {
      ReconcileAt(s, attrs1, k);
      ReconcileAt(s, attrs2, k);
      if k in ManagedProps() {
        ObservedAttributesExactly(AttrName(Decider(k)));
      } else if k == Direction {
        ObservedAttributesExactly("direction");
      }
    }
    LookupExtensional(Reconcile(s, attrs1), Reconcile(s, attrs2));
  }

  /** Removing an axis attribute changes no property of the updated style. */
  lemma AxisAttributeNeverDecidesAt(s: Style, attrs: Attrs, a: SizeAttr, k: Prop)
    requires a in {Px, Py, Mx, My}
    ensures Lookup(Reconcile(s, attrs), k) == Lookup(Reconcile(s, attrs - {AttrName(a)}), k)
  {
    var attrs2 := attrs - {AttrName(a)};
    ReconcileAt(s, attrs, k);
    ReconcileAt(s, attrs2, k);
    AttrNameInjective(a, a);
    if k in ManagedProps() {
      var b := Decider(k);
      assert b != a;
      AttrNameInjective(a, b);
      assert Lookup(attrs, AttrName(b)) == Lookup(attrs2, AttrName(b));
    }
  }

  /**
   * Because "pl", "pr", "pt", "pb", "ml", "mr", "mt" and "mb" come later in
   * the order and always write or clear their property, the axis attributes
   * "px", "py", "mx" and "my" never decide any property, in this model, where
   * assigning undefined to a style property removes it.
   */
  lemma AxisAttributesNeverDecide(s: Style, attrs: Attrs, a: SizeAttr)
    requires a in {Px, Py, Mx, My}
    ensures Reconcile(s, attrs) == Reconcile(s, attrs - {AttrName(a)})
  {
    forall k ensures Lookup(Reconcile(s, attrs), k) == Lookup(Reconcile(s, attrs - {AttrName(a)}), k) {
      AxisAttributeNeverDecidesAt(s, attrs, a, k);
    }
    LookupExtensional(Reconcile(s, attrs), Reconcile(s, attrs - {AttrName(a)}));
  }

  /** "pl" is processed after "px", so it is "pl" that decides the left padding. */
  lemma PlDecidesPaddingLeft()
    ensures SizeAttributes()[LastWriter(PaddingLeft)] == Pl
    ensures PaddingLeft in AttrMap(Px)
  {
  }

  /**
   * An element with px="md" and rowgap="xs": the row gap is set, while "pl"
   * and "pr", absent, clear the left and right padding that "px" wrote (in
   * this model, where assigning undefined to a style property removes it).
   */
  lemma ScenarioPxRowgap(s: Style)
    ensures var r := Reconcile(s, map["px" := "md", "rowgap" := "xs"]);
      && PaddingLeft !in r && PaddingRight !in r
      && RowGap in r && r[RowGap] == "var(--xs)"
      && r[Direction] == "column"
  {
    var attrs := map["px" := "md", "rowgap" := "xs"];
    ReconcileManaged(s, attrs, PaddingLeft);
    ReconcileManaged(s, attrs, PaddingRight);
    ReconcileManaged(s, attrs, RowGap);
    assert Lookup(attrs, "rowgap") == Some(SizeName(Xs));
    assert Effect(attrs, Rowgap) == Some("var(--xs)");
  }

  /** Setting p="sm" writes the padding; removing the attribute afterwards clears it again. */
  lemma ScenarioPaddingRemoved(s: Style)
    ensures var r := Reconcile(s, map["p" := "sm"]);
      && Padding in r && r[Padding] == "var(--sm)"
      && Padding !in Reconcile(r, map[])
  {
    var attrs := map["p" := "sm"];
    var r := Reconcile(s, attrs);
    ReconcileManaged(s, attrs, Padding);
    ReconcileManaged(r, map[], Padding);
    assert Lookup(attrs, "p") == Some(SizeName(Sm));
    assert Effect(attrs, P) == Some("var(--sm)");
  }
}
