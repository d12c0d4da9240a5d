/**
 * The constant tables of the ContainerDiv element: the size tokens with
 * their default CSS values, the spacing attributes in their processing
 * order, and the CSS properties each spacing attribute controls.
 */
module Tables {
  import opened Wrappers

  /** The closed list of size tokens an attribute value may name. */
  datatype Size = Zero | Xs | Sm | Md | Lg | Xl | Xxl

  /** The spacing attributes: padding family, margin family, flex gaps. */
  datatype SizeAttr =
    | P | Px | Py | Pt | Pr | Pb | Pl
    | M | Mx | My | Mt | Mr | Mb | Ml
    | Rowgap | Colgap

  /** The token list, in declaration order. */
  function Sizes(): (r: seq<Size>)
    ensures |r| == 7 && r[0] == Zero
    ensures forall i, j :: 0 <= i < j < |r| ==> r[i] != r[j]
  {
    [Zero, Xs, Sm, Md, Lg, Xl, Xxl]
  }

  /** The token list is total over the tokens. */
  lemma SizesEnumerate(t: Size)
    ensures t in Sizes()
  {
    var r := Sizes();
    match t
    case Zero => assert r[0] == t;
    case Xs => assert r[1] == t;
    case Sm => assert r[2] == t;
    case Md => assert r[3] == t;
    case Lg => assert r[4] == t;
    case Xl => assert r[5] == t;
    case Xxl => assert r[6] == t;
  }

  /** The spelling of a token in an attribute value. */
  function SizeName(t: Size): string
  {
    match t
    case Zero => "zero"
    case Xs => "xs"
    case Sm => "sm"
    case Md => "md"
    case Lg => "lg"
    case Xl => "xl"
    case Xxl => "xxl"
  }

  /** Membership of a string in the token list, returning the token it names. */
  function ParseSize(v: string): (r: Option<Size>)
    ensures r.Some? ==> SizeName(r.value) == v
    ensures r.None? ==> forall t: Size :: SizeName(t) != v
  {
    if v == "zero" then Some(Zero)
    else if v == "xs" then Some(Xs)
    else if v == "sm" then Some(Sm)
    else if v == "md" then Some(Md)
    else if v == "lg" then Some(Lg)
    else if v == "xl" then Some(Xl)
    else if v == "xxl" then Some(Xxl)
    else None
  }

  /** Every token is recognised by its own spelling. */
  lemma ParseSizeName(t: Size)
    ensures ParseSize(SizeName(t)) == Some(t)
  {
    match t
    case Zero =>
    case Xs =>
    case Sm =>
    case Md =>
    case Lg =>
    case Xl =>
    case Xxl =>
  }

  /** No token is spelled with the empty string, so the truthiness test updateAttributes makes before the membership test never decides anything. */
  lemma EmptyIsNoSize()
    ensures ParseSize("") == None
  {
  }

  /** The default CSS value of each token. */
  function Default(t: Size): (r: string)
    ensures t == Zero ==> r == "0"
    ensures t != Zero ==> r == "var(--" + SizeName(t) + ")"
  {
    match t
    case Zero => "0"
    case Xs => "var(--xs)"
    case Sm => "var(--sm)"
    case Md => "var(--md)"
    case Lg => "var(--lg)"
    case Xl => "var(--xl)"
    case Xxl => "var(--xxl)"
  }

  /** Distinct tokens never share a default value. */
  lemma DefaultInjective(t: Size, u: Size)
    requires Default(t) == Default(u)
    ensures t == u
  {
    if t != Zero && u != Zero {
      var pre := "var(--";
      var st, su := SizeName(t), SizeName(u);
      assert Default(t)[|pre|..|Default(t)| - 1] == st;
      assert Default(u)[|pre|..|Default(u)| - 1] == su;
    }
  }

  /** The spelling of a spacing attribute in markup. */
  function AttrName(a: SizeAttr): string
  {
    match a
    case P => "p"
    case Px => "px"
    case Py => "py"
    case Pt => "pt"
    case Pr => "pr"
    case Pb => "pb"
    case Pl => "pl"
    case M => "m"
    case Mx => "mx"
    case My => "my"
    case Mt => "mt"
    case Mr => "mr"
    case Mb => "mb"
    case Ml => "ml"
    case Rowgap => "rowgap"
    case Colgap => "colgap"
  }

  /** Attribute names identify attributes, and none of them is "direction". */
  lemma AttrNameInjective(a: SizeAttr, b: SizeAttr)
    ensures AttrName(a) != "direction"
    ensures AttrName(a) == AttrName(b) ==> a == b
  {
  }

  /** The fixed order in which the reconciler visits the spacing attributes. */
  function SizeAttributes(): (r: seq<SizeAttr>)
    ensures |r| == 16
    ensures forall i, j :: 0 <= i < j < |r| ==> r[i] != r[j]
  {
    [P, Px, Py, Pt, Pr, Pb, Pl, M, Mx, My, Mt, Mr, Mb, Ml, Rowgap, Colgap]
  }

  /** SizeAttributes() lists every spacing attribute. */
  lemma SizeAttributesEnumerate(a: SizeAttr)
    ensures a in SizeAttributes()
  {
    var r := SizeAttributes();
    match a
    case P => assert r[0] == a;
    case Px => assert r[1] == a;
    case Py => assert r[2] == a;
    case Pt => assert r[3] == a;
    case Pr => assert r[4] == a;
    case Pb => assert r[5] == a;
    case Pl => assert r[6] == a;
    case M => assert r[7] == a;
    case Mx => assert r[8] == a;
    case My => assert r[9] == a;
    case Mt => assert r[10] == a;
    case Mr => assert r[11] == a;
    case Mb => assert r[12] == a;
    case Ml => assert r[13] == a;
    case Rowgap => assert r[14] == a;
    case Colgap => assert r[15] == a;
  }

  /** The attributes whose change the host reports: the spacing attributes, then "direction". */
  function ObservedAttributes(): (r: seq<string>)
    ensures |r| == |SizeAttributes()| + 1 && r[|r| - 1] == "direction"
    ensures forall i :: 0 <= i < |SizeAttributes()| ==> r[i] == AttrName(SizeAttributes()[i])
  {
    var sa := SizeAttributes();
    seq(|sa|, i requires 0 <= i < |sa| => AttrName(sa[i])) + ["direction"]
  }

  /** The observed names are exactly the spacing attribute names and "direction". */
  lemma ObservedAttributesExactly(n: string)
    ensures n in ObservedAttributes() <==> n == "direction" || exists a: SizeAttr :: AttrName(a) == n
  {
    var r, sa := ObservedAttributes(), SizeAttributes();
    if n in r && n != "direction" {
      var i :| 0 <= i < |r| && r[i] == n;
      assert AttrName(sa[i]) == n;
    }
    if exists a: SizeAttr :: AttrName(a) == n {
      var a: SizeAttr :| AttrName(a) == n;
      SizeAttributesEnumerate(a);
      var i :| 0 <= i < |sa| && sa[i] == a;
      assert r[i] == n;
    }
  }

  predicate IsPaddingAttr(a: SizeAttr)
  {
    a in {P, Px, Py, Pt, Pr, Pb, Pl}
  }

  predicate IsMarginAttr(a: SizeAttr)
  {
    a in {M, Mx, My, Mt, Mr, Mb, Ml}
  }

  /**
   * The keys of the inline style declaration: the properties the element
   * writes, and every other property (Other), which it never writes.
   */
  datatype Prop =
    | Padding | PaddingLeft | PaddingRight | PaddingTop | PaddingBottom
    | Margin | MarginLeft | MarginRight | MarginTop | MarginBottom
    | RowGap | ColumnGap
    | Direction | Display | Transition
    | Other(name: OtherName)

  /**
   * The name of any other style key. It is never spelled as one of the 15
   * camel-case names the element writes, so no Other key shares a spelling
   * with a key that has a constructor of its own. Dashed spellings
   * ("padding-left") and vendor aliases are other keys here.
   */
  type OtherName = n: string | n !in WrittenNames() witness ""

  /** The names of the properties the element writes. */
  function WrittenNames(): set<string>
  {
    {"padding", "paddingLeft", "paddingRight", "paddingTop", "paddingBottom",
     "margin", "marginLeft", "marginRight", "marginTop", "marginBottom",
     "rowGap", "columnGap", "direction", "display", "transition"}
  }

  /** The key a style declaration name denotes, when it is one the element writes. */
  function PropNamed(n: string): Option<Prop>
  {
    if n == "padding" then Some(Padding)
    else if n == "paddingLeft" then Some(PaddingLeft)
    else if n == "paddingRight" then Some(PaddingRight)
    else if n == "paddingTop" then Some(PaddingTop)
    else if n == "paddingBottom" then Some(PaddingBottom)
    else if n == "margin" then Some(Margin)
    else if n == "marginLeft" then Some(MarginLeft)
    else if n == "marginRight" then Some(MarginRight)
    else if n == "marginTop" then Some(MarginTop)
    else if n == "marginBottom" then Some(MarginBottom)
    else if n == "rowGap" then Some(RowGap)
    else if n == "columnGap" then Some(ColumnGap)
    else if n == "direction" then Some(Direction)
    else if n == "display" then Some(Display)
    else if n == "transition" then Some(Transition)
    else None
  }

  /** The property's name in the style declaration. */
  function PropName(p: Prop): string
  {
    match p
    case Padding => "padding"
    case PaddingLeft => "paddingLeft"
    case PaddingRight => "paddingRight"
    case PaddingTop => "paddingTop"
    case PaddingBottom => "paddingBottom"
    case Margin => "margin"
    case MarginLeft => "marginLeft"
    case MarginRight => "marginRight"
    case MarginTop => "marginTop"
    case MarginBottom => "marginBottom"
    case RowGap => "rowGap"
    case ColumnGap => "columnGap"
    case Direction => "direction"
    case Display => "display"
    case Transition => "transition"
    case Other(name) => name
  }

  /** Reading a key's name back gives the key, or nothing for a property the element never writes. */
  lemma PropNameRoundTrip(p: Prop)
    ensures PropNamed(PropName(p)) == if p.Other? then None else Some(p)
  {
    match p
    case Padding =>
    case PaddingLeft =>
    case PaddingRight =>
    case PaddingTop =>
    case PaddingBottom =>
    case Margin =>
    case MarginLeft =>
    case MarginRight =>
    case MarginTop =>
    case MarginBottom =>
    case RowGap =>
    case ColumnGap =>
    case Direction =>
    case Display =>
    case Transition =>
    case Other(_) =>
  }

  /** Distinct keys have distinct declaration names. */
  lemma PropNameInjective(p: Prop, q: Prop)
    requires PropName(p) == PropName(q)
    ensures p == q
  {
    PropNameRoundTrip(p);
    PropNameRoundTrip(q);
  }

  /** The CSS properties a spacing attribute controls, in the order they are written. */
  function AttrMap(a: SizeAttr): seq<Prop>
  {
    match a
    case P => [Padding]
    case Px => [PaddingLeft, PaddingRight]
    case Py => [PaddingTop, PaddingBottom]
    case Pt => [PaddingTop]
    case Pr => [PaddingRight]
    case Pb => [PaddingBottom]
    case Pl => [PaddingLeft]
    case M => [Margin]
    case Mx => [MarginLeft, MarginRight]
    case My => [MarginTop, MarginBottom]
    case Mt => [MarginTop]
    case Mr => [MarginRight]
    case Mb => [MarginBottom]
    case Ml => [MarginLeft]
    case Colgap => [ColumnGap]
    case Rowgap => [RowGap]
  }

  /**
   * Every attribute controls one or two distinct properties: "p" and "m"
   * one shorthand each, the axis attributes two longhands, every other
   * attribute one longhand.
   */
  lemma AttrMapShape(a: SizeAttr)
    ensures 1 <= |AttrMap(a)| <= 2
    ensures |AttrMap(a)| == 2 ==> AttrMap(a)[0] != AttrMap(a)[1]
    ensures |AttrMap(a)| == 2 <==> a in {Px, Py, Mx, My}
    ensures a in {P, M} <==> AttrMap(a) == [Padding] || AttrMap(a) == [Margin]
  {
    match a
    case P =>
    case Px =>
    case Py =>
    case Pt =>
    case Pr =>
    case Pb =>
    case Pl =>
    case M =>
    case Mx =>
    case My =>
    case Mt =>
    case Mr =>
    case Mb =>
    case Ml =>
    case Rowgap =>
    case Colgap =>
  }

  /** Each family of attributes controls only properties whose names carry the family's prefix. */
  lemma AttrMapFamilies(a: SizeAttr, p: Prop)
    requires p in AttrMap(a)
    ensures IsPaddingAttr(a) <==> "padding" <= PropName(p)
    ensures IsMarginAttr(a) <==> "margin" <= PropName(p)
    ensures !IsPaddingAttr(a) && !IsMarginAttr(a) <==> p in {RowGap, ColumnGap}
  {
    var n := PropName(p);
    if IsPaddingAttr(a) {
      assert n[0] == 'p' && n[..7] == "padding";
    } else if IsMarginAttr(a) {
      assert n[0] == 'm' && n[..6] == "margin";
    } else {
      assert n[0] == 'r' || n[0] == 'c';
    }
  }

  /** The properties the spacing attributes manage. */
  function ManagedProps(): set<Prop>
  {
    {Padding, PaddingLeft, PaddingRight, PaddingTop, PaddingBottom,
     Margin, MarginLeft, MarginRight, MarginTop, MarginBottom,
     RowGap, ColumnGap}
  }

  /** The managed properties are exactly the union of the attribute map's ranges, which leaves out Direction, Display, Transition and every other property. */
  lemma ManagedIsUnion(k: Prop)
    ensures k in ManagedProps() <==> exists a: SizeAttr :: k in AttrMap(a)
  {
    if k in ManagedProps() {
      var a :=
        match k
        case Padding => P
        case PaddingLeft => Pl
        case PaddingRight => Pr
        case PaddingTop => Pt
        case PaddingBottom => Pb
        case Margin => M
        case MarginLeft => Ml
        case MarginRight => Mr
        case MarginTop => Mt
        case MarginBottom => Mb
        case RowGap => Rowgap
        case _ => Colgap;
      assert k in AttrMap(a);
    }
    if exists a: SizeAttr :: k in AttrMap(a) {
      var a: SizeAttr :| k in AttrMap(a);
      match a
      case P =>
      case Px =>
      case Py =>
      case Pt =>
      case Pr =>
      case Pb =>
      case Pl =>
      case M =>
      case Mx =>
      case My =>
      case Mt =>
      case Mr =>
      case Mb =>
      case Ml =>
      case Rowgap =>
      case Colgap =>
    }
  }

  /**
   * The position in SizeAttributes() of the last attribute whose map
   * contains the managed property k: the attribute whose step decides k.
   */
  function LastWriter(k: Prop): (i: nat)
    requires k in ManagedProps()
    ensures i < |SizeAttributes()| && k in AttrMap(SizeAttributes()[i])
    ensures forall j :: i < j < |SizeAttributes()| ==> k !in AttrMap(SizeAttributes()[j])
  {
    match k
    case Padding => 0
    case PaddingTop => 3
    case PaddingRight => 4
    case PaddingBottom => 5
    case PaddingLeft => 6
    case Margin => 7
    case MarginTop => 10
    case MarginRight => 11
    case MarginBottom => 12
    case MarginLeft => 13
    case RowGap => 14
    case ColumnGap => 15
  }

  /**
   * The attribute that decides a managed property: the last one in the order
   * whose map holds it. A table written out by hand, because indexing
   * SizeAttributes() is costly for the solver; DeciderIsLastWriter is what
   * ties it to the specification LastWriter.
   */
  function Decider(k: Prop): SizeAttr
    requires k in ManagedProps()
  {
    match k
    case Padding => P
    case PaddingTop => Pt
    case PaddingRight => Pr
    case PaddingBottom => Pb
    case PaddingLeft => Pl
    case Margin => M
    case MarginTop => Mt
    case MarginRight => Mr
    case MarginBottom => Mb
    case MarginLeft => Ml
    case RowGap => Rowgap
    case ColumnGap => Colgap
  }

  lemma DeciderIsLastWriter(k: Prop)
    requires k in ManagedProps()
    ensures Decider(k) == SizeAttributes()[LastWriter(k)]
  {
  }
}
