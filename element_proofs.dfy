/**
 * Properties of the element lowering: the children list, the shape of the
 * emitted call, the slot flag and the deoptimization that a runtime-resolved
 * directive forces on every enclosing element.
 */
module ElementProofs {
  import opened Wrappers
  import opened SlotFlags
  import opened PatchFlags
  import opened Transform
  import ScanProofs

  // ---------------------------------------------------------------------------
  // getChildren

  /** The children a `getChildren` call cannot lower: an unsupported node, or an element whose lowering fails. */
  predicate Fails(c: Child, opts: Options, env: Env) {
    c.UnsupportedChild? || (c.JsxElement? && LowerElement(c.child, opts, env).Err?)
  }

  /** A direct element child that asks its ancestors to deoptimize. */
  predicate Deopts(c: Child, opts: Options, env: Env) {
    c.JsxElement? && LowerElement(c.child, opts, env).Ok? && LowerElement(c.child, opts, env).value.deopt
  }

  lemma LowerChildOutcome(c: Child, opts: Options, env: Env)
    ensures LowerChild(c, opts, env).Err? <==> Fails(c, opts, env)
    ensures LowerChild(c, opts, env).Ok? ==> (LowerChild(c, opts, env).value.deopt <==> Deopts(c, opts, env))
  {
  }

  /** Lowering the children fails exactly when one of them cannot be lowered. */
  lemma {:induction false} ChildrenFail(cs: seq<Child>, opts: Options, env: Env)
    ensures GetChildren(cs, opts, env).Err? <==> exists i :: 0 <= i < |cs| && Fails(cs[i], opts, env)
    decreases cs
  {
    if |cs| > 0 {
      LowerChildOutcome(cs[0], opts, env);
      ChildrenFail(cs[1..], opts, env);
      if exists i :: 1 <= i < |cs| && Fails(cs[i], opts, env) {
        var i :| 1 <= i < |cs| && Fails(cs[i], opts, env);
        assert Fails(cs[1..][i - 1], opts, env);
      }
      if exists i :: 0 <= i < |cs[1..]| && Fails(cs[1..][i], opts, env) {
        var i :| 0 <= i < |cs[1..]| && Fails(cs[1..][i], opts, env);
        assert Fails(cs[i + 1], opts, env);
      }
    }
  }

  /** A successful lowering has at most one entry per child and none of them is empty. */
  lemma {:induction false} ChildrenClean(cs: seq<Child>, opts: Options, env: Env)
    requires GetChildren(cs, opts, env).Ok?
    ensures var out := GetChildren(cs, opts, env).value;
      |out.expressions| <= |cs| &&
      forall k :: 0 <= k < |out.expressions| ==> !out.expressions[k].JSXEmptyExpression?
    decreases cs
  {
    if |cs| > 0 {
      ChildrenClean(cs[1..], opts, env);
    }
  }

  /** A successful lowering deoptimizes exactly when some element child does. */
  lemma {:induction false} ChildrenDeopt(cs: seq<Child>, opts: Options, env: Env)
    requires GetChildren(cs, opts, env).Ok?
    ensures GetChildren(cs, opts, env).value.deopt <==> exists i :: 0 <= i < |cs| && Deopts(cs[i], opts, env)
    decreases cs
  {
    if |cs| > 0 {
      LowerChildOutcome(cs[0], opts, env);
      ChildrenDeopt(cs[1..], opts, env);
      if exists i :: 1 <= i < |cs| && Deopts(cs[i], opts, env) {
        var i :| 1 <= i < |cs| && Deopts(cs[i], opts, env);
        assert Deopts(cs[1..][i - 1], opts, env);
      }
      if exists i :: 0 <= i < |cs[1..]| && Deopts(cs[1..][i], opts, env) {
        var i :| 0 <= i < |cs[1..]| && Deopts(cs[1..][i], opts, env);
        assert Deopts(cs[i + 1], opts, env);
      }
    }
  }

  /**
   * Lowering the children fails exactly when one of them cannot be lowered;
   * otherwise the result keeps no empty expression, has at most one entry per
   * child, and asks for deoptimization exactly when some element child does.
   */
  lemma ChildrenOutcome(cs: seq<Child>, opts: Options, env: Env)
    ensures GetChildren(cs, opts, env).Err? <==> exists i :: 0 <= i < |cs| && Fails(cs[i], opts, env)
    ensures GetChildren(cs, opts, env).Ok? ==>
      var out := GetChildren(cs, opts, env).value;
      |out.expressions| <= |cs| &&
      (forall k :: 0 <= k < |out.expressions| ==> !out.expressions[k].JSXEmptyExpression?) &&
      (out.deopt <==> exists i :: 0 <= i < |cs| && Deopts(cs[i], opts, env))
  {
    ChildrenFail(cs, opts, env);
    if GetChildren(cs, opts, env).Ok? {
      ChildrenClean(cs, opts, env);
      ChildrenDeopt(cs, opts, env);
    }
  }

  /** A child's lowered value before the filter; `None` when it yields nothing or cannot be lowered. */
  function ChildValue(c: Child, opts: Options, env: Env): Option<Expr> {
    var r := LowerChild(c, opts, env);
    if r.Ok? then r.value.value else None
  }

  /** The values the filter lets through, child by child in order. */
  function Survivors(cs: seq<Child>, opts: Options, env: Env): seq<Expr>
    decreases |cs|
  {
    if |cs| == 0 then [] else Kept(ChildValue(cs[0], opts, env)) + Survivors(cs[1..], opts, env)
  }

  /** An expression survives exactly when it is not empty and some child lowers to it. */
  lemma {:induction false} SurvivorMembers(cs: seq<Child>, opts: Options, env: Env)
    ensures forall e :: e in Survivors(cs, opts, env) <==>
      !e.JSXEmptyExpression? && exists i :: 0 <= i < |cs| && ChildValue(cs[i], opts, env) == Some(e)
    decreases |cs|
  {
    if |cs| > 0 {
      SurvivorMembers(cs[1..], opts, env);
      assert forall i :: 1 <= i < |cs| ==> cs[i] == cs[1..][i - 1];
      forall e: Expr | !e.JSXEmptyExpression? && exists i :: 0 <= i < |cs| && ChildValue(cs[i], opts, env) == Some(e)
        ensures e in Survivors(cs, opts, env)
      {
        var i :| 0 <= i < |cs| && ChildValue(cs[i], opts, env) == Some(e);
        if i > 0 {
          assert ChildValue(cs[1..][i - 1], opts, env) == Some(e);
        }
      }
    }
  }

  /**
   * The keep half of `getChildren`: on success its expressions are exactly the
   * surviving child values, in the children's order, so every lowered child
   * that is neither null nor an empty expression is kept.
   */
  lemma {:induction false} ChildrenKept(cs: seq<Child>, opts: Options, env: Env)
    requires GetChildren(cs, opts, env).Ok?
    ensures var out := GetChildren(cs, opts, env).value;
      out.expressions == Survivors(cs, opts, env) &&
      forall e :: e in out.expressions <==>
        !e.JSXEmptyExpression? && exists i :: 0 <= i < |cs| && ChildValue(cs[i], opts, env) == Some(e)
    decreases cs
  {
    if |cs| > 0 {
      ChildrenKept(cs[1..], opts, env);
    }
    SurvivorMembers(cs, opts, env);
  }

  // ---------------------------------------------------------------------------
  // The createVNode call

  /** What the emitted vnode call looks like, described position by position. */
  predicate IsVNodeCall(c: Expr, isComponent: bool, tag: Expr, props: Expr, patchFlag: Mask,
                        dynamicPropNames: seq<string>, opts: Options)
  {
    var withFlag := patchFlag != 0 && opts.optimize;
    var withNames := |dynamicPropNames| > 0 && opts.optimize;
    c.CallExpression? &&
    c.callee == HelperRef(if isComponent then "createVNode" else "createElementVNode") &&
    |c.arguments| == 3 + (if withFlag then 1 else 0) + (if withNames then 1 else 0) &&
    c.arguments[0] == tag && c.arguments[1] == props &&
    (withFlag ==> c.arguments[3] == NumericLiteral(patchFlag as int)) &&
    (withNames ==> c.arguments[|c.arguments| - 1] == ArrayExpression(NameLiterals(dynamicPropNames)))
  }

  /** The argument filter keeps the present arguments in order. */
  lemma PresentArguments(a: Expr, b: Expr, c: Expr, d: Option<Expr>, e: Option<Expr>)
    ensures Present([Some(a), Some(b), Some(c), d, e]) ==
      [a, b, c] + (if d.Some? then [d.value] else []) + (if e.Some? then [e.value] else [])
  {
    var de := if d.Some? then [d.value] else [];
    var ee := if e.Some? then [e.value] else [];
    assert [e][1..] == [];
    assert Present([e]) == ee;
    assert [d, e][1..] == [e];
    assert Present([d, e]) == de + ee;
    assert [Some(c), d, e][1..] == [d, e];
    assert Present([Some(c), d, e]) == [c] + (de + ee);
    assert [Some(b), Some(c), d, e][1..] == [Some(c), d, e];
    assert Present([Some(b), Some(c), d, e]) == [b] + ([c] + (de + ee));
    assert [Some(a), Some(b), Some(c), d, e][1..] == [Some(b), Some(c), d, e];
  }

  /** The call keeps tag, props and children in place and drops only the absent trailing arguments. */
  lemma CreateCallShape(isComponent: bool, tag: Expr, props: Expr, child: Option<Expr>, patchFlag: Mask,
                        dynamicPropNames: seq<string>, opts: Options)
    ensures var c := CreateCall(isComponent, tag, props, child, patchFlag, dynamicPropNames, opts);
      IsVNodeCall(c, isComponent, tag, props, patchFlag, dynamicPropNames, opts) &&
      c.arguments[2] == (if child.Some? then child.value else NullLiteral)
  {
    PresentArguments(tag, props, if child.Some? then child.value else NullLiteral,
                     if patchFlag != 0 && opts.optimize then Some(NumericLiteral(patchFlag as int)) else None,
                     if |dynamicPropNames| > 0 && opts.optimize then Some(ArrayExpression(NameLiterals(dynamicPropNames))) else None);
  }

  // ---------------------------------------------------------------------------
  // Slot flags of the children shape

  /**
   * Merging a `v-slots` value: an object literal is classified entry by entry;
   * any other value keeps a DYNAMIC flag and otherwise gives FORWARDED for the
   * enclosing component's own `slots` and DYNAMIC for anything else. Either
   * way the flag only escalates.
   */
  lemma SlotsValueFlagShape(slots: Expr, seed: SlotFlag)
    ensures var r := SlotsValueFlag(slots, seed);
      (slots.ObjectExpression? ==> r == Classify(EntriesOf(slots.properties), seed)) &&
      (!slots.ObjectExpression? && seed == DYNAMIC ==> r == DYNAMIC) &&
      (!slots.ObjectExpression? && seed != DYNAMIC ==> r == (if slots == Identifier("slots") then FORWARDED else DYNAMIC)) &&
      (r == seed || r == FORWARDED || r == DYNAMIC) && r.Rank() >= seed.Rank() && (seed == DYNAMIC ==> r == DYNAMIC)
  {
    if slots.ObjectExpression? {
      ClassifyShape(EntriesOf(slots.properties), seed);
      DynamicPriorAbsorbs(EntriesOf(slots.properties));
    }
  }

  /**
   * The children shape only escalates the slot flag it starts from (to
   * FORWARDED or DYNAMIC), and a DYNAMIC start stays DYNAMIC.
   */
  lemma ShapeEscalates(el: Element, children: seq<Expr>, slots: Option<Expr>, isComponent: bool,
                       seed: SlotFlag, opts: Options, env: Env)
    ensures var r := ChildrenShape(el, children, slots, isComponent, seed, opts, env).slotFlag;
      (r == seed || r == FORWARDED || r == DYNAMIC) && r.Rank() >= seed.Rank() && (seed == DYNAMIC ==> r == DYNAMIC)
  {
    if slots.Some? {
      SlotsValueFlagShape(slots.value, seed);
    }
    if |children| == 1 && children[0].ObjectExpression? {
      ClassifyShape(EntriesOf(children[0].properties), seed);
      DynamicPriorAbsorbs(EntriesOf(children[0].properties));
    }
  }

  /**
   * A plain element takes several children (or children with `v-slots`) as an
   * array, and a single child that is neither a function nor an object literal
   * as a one-element array; the slot flag stays as it was.
   */
  lemma PlainElementChildren(el: Element, children: seq<Expr>, slots: Option<Expr>, seed: SlotFlag,
                             opts: Options, env: Env)
    ensures var shape := ChildrenShape(el, children, slots, false, seed, opts, env);
      (|children| > 1 || slots.Some? ==> shape == Shape(Some(ArrayExpression(children)), seed)) &&
      (|children| == 1 && slots.None? && !children[0].FunctionExpression? &&
       !children[0].ArrowFunctionExpression? && !children[0].ObjectExpression? ==>
         shape == Shape(Some(ArrayExpression(children)), seed))
  {
    if |children| == 1 && slots.None? {
      assert children == [children[0]];
    }
  }

  /** `v-slots={slots}` (the enclosing component's own slots) on a component marks the slots FORWARDED. */
  lemma ForwardedSlotsShape(el: Element, children: seq<Expr>, seed: SlotFlag, opts: Options, env: Env)
    requires seed == STABLE
    requires |children| > 0 || opts.optimize
    ensures ChildrenShape(el, children, Some(Identifier("slots")), true, seed, opts, env).slotFlag == FORWARDED
  {
  }

  /** Any other non-object `v-slots` expression on a component makes the slots DYNAMIC. */
  lemma OpaqueSlotsShape(el: Element, children: seq<Expr>, slots: Expr, seed: SlotFlag, opts: Options, env: Env)
    requires !slots.ObjectExpression? && slots != Identifier("slots")
    requires |children| > 0 || opts.optimize
    ensures ChildrenShape(el, children, Some(slots), true, seed, opts, env).slotFlag == DYNAMIC
  {
  }

  // ---------------------------------------------------------------------------
  // The lowered element

  lemma LoweredParts(el: Element, opts: Options, env: Env)
    requires LowerElement(el, opts, env).Ok?
    ensures GetChildren(el.children, opts, env).Ok? && BuildPropsSpec(el, opts, env).Ok?
    ensures var kids := GetChildren(el.children, opts, env).value;
      var pr := BuildPropsSpec(el, opts, env).value;
      LowerElement(el, opts, env).value ==
        Finish(pr, ChildrenShape(el, kids.expressions, pr.slots, pr.isComponent,
                                  if kids.deopt then DYNAMIC else STABLE, opts, env), kids.deopt, opts)
  {
  }

  lemma PropsFacts(el: Element, opts: Options, env: Env)
    requires BuildPropsSpec(el, opts, env).Ok?
    ensures var pr := BuildPropsSpec(el, opts, env).value;
      pr.tag == el.tag && pr.isComponent == el.isComponent && pr.patchFlag & DYNAMIC_SLOTS == 0 &&
      (|pr.dynamicPropNames| > 0 ==> pr.patchFlag != 0)
  {
  }

  /** DYNAMIC_SLOTS is set exactly for DYNAMIC slots, and the other bits are the props' own flag. */
  predicate SlotBitAgrees(patchFlag: Mask, slotFlag: SlotFlag, propsFlag: Mask) {
    (Has(patchFlag, DYNAMIC_SLOTS) <==> slotFlag == DYNAMIC) && patchFlag & !DYNAMIC_SLOTS == propsFlag
  }

  lemma SlotPatchFlagBits(propsFlag: Mask, slotFlag: SlotFlag)
    requires propsFlag & DYNAMIC_SLOTS == 0
    ensures SlotBitAgrees(SlotPatchFlag(propsFlag, slotFlag), slotFlag, propsFlag)
  {
    if slotFlag == DYNAMIC {
      SetDynamicSlots(propsFlag);
    } else {
      KeepDynamicSlotsClear(propsFlag, slotFlag);
    }
  }

  lemma SetDynamicSlots(f: Mask)
    requires f & DYNAMIC_SLOTS == 0
    ensures SlotBitAgrees(f | DYNAMIC_SLOTS, DYNAMIC, f)
  {
  }

  lemma KeepDynamicSlotsClear(f: Mask, slotFlag: SlotFlag)
    requires f & DYNAMIC_SLOTS == 0 && slotFlag != DYNAMIC
    ensures SlotBitAgrees(f, slotFlag, f)
  {
  }

  lemma FinishFlag(pr: PropsResult, shape: Shape, deopt: bool, opts: Options)
    requires pr.patchFlag & DYNAMIC_SLOTS == 0
    ensures var l := Finish(pr, shape, deopt, opts);
      SlotBitAgrees(l.patchFlag, l.slotFlag, pr.patchFlag)
  {
    var l := Finish(pr, shape, deopt, opts);
    SlotPatchFlagBits(pr.patchFlag, shape.slotFlag);
    assert l.patchFlag == SlotPatchFlag(pr.patchFlag, shape.slotFlag) && l.slotFlag == shape.slotFlag;
  }

  /** The element asks for deoptimization when a child did or when it has a runtime-resolved directive. */
  lemma FinishDeopt(pr: PropsResult, shape: Shape, deopt: bool, opts: Options)
    ensures var l := Finish(pr, shape, deopt, opts);
      l.slotFlag == shape.slotFlag && (l.deopt <==> deopt || HasRuntimeDirective(pr.directives))
  {
  }

  /** The emitted call, with or without the `withDirectives` wrapper. */
  predicate IsElementCall(c: Expr, pr: PropsResult, patchFlag: Mask, opts: Options) {
    (|pr.directives| == 0 ==>
       IsVNodeCall(c, pr.isComponent, pr.tag, pr.props, patchFlag, pr.dynamicPropNames, opts)) &&
    (|pr.directives| > 0 ==>
       c.CallExpression? && c.callee == HelperRef("withDirectives") && |c.arguments| == 2 &&
       IsVNodeCall(c.arguments[0], pr.isComponent, pr.tag, pr.props, patchFlag, pr.dynamicPropNames, opts) &&
       c.arguments[1] == ArrayExpression(pr.directives))
  }

  /** The vnode call inside the optional `withDirectives` wrapper. */
  function VNodeOf(c: Expr, directives: seq<Expr>): Expr {
    if |directives| > 0 && c.CallExpression? && |c.arguments| > 0 then c.arguments[0] else c
  }

  lemma FinishCall(pr: PropsResult, shape: Shape, deopt: bool, opts: Options)
    requires |pr.dynamicPropNames| > 0 ==> pr.patchFlag != 0
    ensures var l := Finish(pr, shape, deopt, opts);
      IsElementCall(l.call, pr, l.patchFlag, opts) &&
      (|pr.dynamicPropNames| > 0 ==> l.patchFlag != 0)
  {
    var l := Finish(pr, shape, deopt, opts);
    var patchFlag := SlotPatchFlag(pr.patchFlag, shape.slotFlag);
    assert l.patchFlag == patchFlag;
    var call := CreateCall(pr.isComponent, pr.tag, pr.props, shape.child, patchFlag, pr.dynamicPropNames, opts);
    CreateCallShape(pr.isComponent, pr.tag, pr.props, shape.child, patchFlag, pr.dynamicPropNames, opts);
    if pr.patchFlag != 0 {
      NonZeroStaysNonZero(pr.patchFlag);
    }
    if |pr.directives| == 0 {
      assert l.call == call;
    } else {
      assert l.call == CallExpression(HelperRef("withDirectives"), [call, ArrayExpression(pr.directives)], false);
    }
  }

  lemma NonZeroStaysNonZero(f: Mask)
    requires f != 0
    ensures f | DYNAMIC_SLOTS != 0
  {
  }

  /**
   * What `transformJSXElement` emits: `createVNode` for components and
   * `createElementVNode` otherwise, wrapped in `withDirectives` exactly when
   * the element has directives; tag and props first; the patch flag only when
   * optimizing and non-zero; the dynamic-prop names only when optimizing and
   * present, and then always after the flag.
   */
  lemma ElementCall(el: Element, opts: Options, env: Env)
    requires LowerElement(el, opts, env).Ok?
    ensures var l := LowerElement(el, opts, env).value;
      var pr := BuildPropsSpec(el, opts, env).value;
      pr.tag == el.tag && pr.isComponent == el.isComponent &&
      IsElementCall(l.call, pr, l.patchFlag, opts) &&
      (|pr.dynamicPropNames| > 0 ==> l.patchFlag != 0)
  {
    LoweredParts(el, opts, env);
    PropsFacts(el, opts, env);
    var kids := GetChildren(el.children, opts, env).value;
    var pr := BuildPropsSpec(el, opts, env).value;
    var shape := ChildrenShape(el, kids.expressions, pr.slots, pr.isComponent,
                               if kids.deopt then DYNAMIC else STABLE, opts, env);
    FinishCall(pr, shape, kids.deopt, opts);
  }

  /**
   * Dropping an absent patch flag never moves the dynamic-prop names into the
   * flag's position: whenever the names are emitted, so is a non-zero flag.
   */
  lemma NamesFollowFlag(c: Expr, pr: PropsResult, patchFlag: Mask, opts: Options)
    requires IsElementCall(c, pr, patchFlag, opts)
    requires |pr.dynamicPropNames| > 0 ==> patchFlag != 0
    requires opts.optimize && |pr.dynamicPropNames| > 0
    ensures var v := VNodeOf(c, pr.directives);
      |v.arguments| == 5 && v.arguments[3] == NumericLiteral(patchFlag as int) &&
      v.arguments[4] == ArrayExpression(NameLiterals(pr.dynamicPropNames))
  {
  }

  /** DYNAMIC_SLOTS is set exactly when the slots end up DYNAMIC; the other bits are the props' flag. */
  lemma ElementPatchFlag(el: Element, opts: Options, env: Env)
    requires LowerElement(el, opts, env).Ok?
    ensures var l := LowerElement(el, opts, env).value;
      SlotBitAgrees(l.patchFlag, l.slotFlag, BuildPropsSpec(el, opts, env).value.patchFlag)
  {
    LoweredParts(el, opts, env);
    PropsFacts(el, opts, env);
    var kids := GetChildren(el.children, opts, env).value;
    var pr := BuildPropsSpec(el, opts, env).value;
    var shape := ChildrenShape(el, kids.expressions, pr.slots, pr.isComponent,
                               if kids.deopt then DYNAMIC else STABLE, opts, env);
    FinishFlag(pr, shape, kids.deopt, opts);
  }

  /**
   * The slot flag starts DYNAMIC when a child deoptimizes and STABLE otherwise;
   * without a `v-slots` value and without a single object-literal child
   * nothing escalates it, so it stays STABLE.
   */
  lemma ElementSlotFlag(el: Element, opts: Options, env: Env)
    requires LowerElement(el, opts, env).Ok?
    ensures var l := LowerElement(el, opts, env).value;
      var kids := GetChildren(el.children, opts, env).value;
      var pr := BuildPropsSpec(el, opts, env).value;
      (kids.deopt ==> l.slotFlag == DYNAMIC) &&
      (!kids.deopt && pr.slots.None? && !(|kids.expressions| == 1 && kids.expressions[0].ObjectExpression?) ==>
         l.slotFlag == STABLE)
  {
    LoweredParts(el, opts, env);
    PropsFacts(el, opts, env);
    var kids := GetChildren(el.children, opts, env).value;
    var pr := BuildPropsSpec(el, opts, env).value;
    ShapeEscalates(el, kids.expressions, pr.slots, pr.isComponent, if kids.deopt then DYNAMIC else STABLE, opts, env);
  }

  /**
   * An element child that asks for deoptimization makes its parent's slots
   * DYNAMIC, sets DYNAMIC_SLOTS, and passes the request on to the parent's
   * own parent.
   */
  lemma DeoptPropagates(el: Element, opts: Options, env: Env, i: nat)
    requires i < |el.children| && Deopts(el.children[i], opts, env)
    requires LowerElement(el, opts, env).Ok?
    ensures var l := LowerElement(el, opts, env).value;
      l.slotFlag == DYNAMIC && Has(l.patchFlag, DYNAMIC_SLOTS) && l.deopt
  {
    ChildrenOutcome(el.children, opts, env);
    ElementSlotFlag(el, opts, env);
    ElementPatchFlag(el, opts, env);
    LoweredParts(el, opts, env);
    var kids := GetChildren(el.children, opts, env).value;
    var pr := BuildPropsSpec(el, opts, env).value;
    PropsFacts(el, opts, env);
    FinishDeopt(pr, ChildrenShape(el, kids.expressions, pr.slots, pr.isComponent,
                                  if kids.deopt then DYNAMIC else STABLE, opts, env), kids.deopt, opts);
  }

  /** The element's own directives include one resolved at run time. */
  predicate RuntimeDirectiveOn(el: Element, opts: Options, env: Env) {
    BuildPropsSpec(el, opts, env).Ok? && HasRuntimeDirective(BuildPropsSpec(el, opts, env).value.directives)
  }

  /** An element with a directive resolved at run time asks its ancestors to deoptimize. */
  lemma RuntimeDirectiveDeopts(el: Element, opts: Options, env: Env)
    requires LowerElement(el, opts, env).Ok?
    requires RuntimeDirectiveOn(el, opts, env)
    ensures LowerElement(el, opts, env).value.deopt
  {
    LoweredParts(el, opts, env);
    PropsFacts(el, opts, env);
    var kids := GetChildren(el.children, opts, env).value;
    var pr := BuildPropsSpec(el, opts, env).value;
    FinishFlag(pr, ChildrenShape(el, kids.expressions, pr.slots, pr.isComponent,
                                  if kids.deopt then DYNAMIC else STABLE, opts, env), kids.deopt, opts);
  }

  /** The descendant reached through a path of element-child indices, if every step is an element child. */
  function Descendant(el: Element, path: seq<nat>): Option<Element>
    decreases |path|
  {
    if |path| == 0 then Some(el)
    else if path[0] < |el.children| && el.children[path[0]].JsxElement? then
      Descendant(el.children[path[0]].child, path[1..])
    else None
  }

  lemma {:induction false} DescendantLowers(el: Element, path: seq<nat>, opts: Options, env: Env)
    requires LowerElement(el, opts, env).Ok?
    requires Descendant(el, path).Some?
    ensures LowerElement(Descendant(el, path).value, opts, env).Ok?
    decreases |path|
  {
    if |path| > 0 {
      LoweredParts(el, opts, env);
      ChildrenOutcome(el.children, opts, env);
      assert !Fails(el.children[path[0]], opts, env);
      DescendantLowers(el.children[path[0]].child, path[1..], opts, env);
    }
  }

  /** A runtime-resolved directive anywhere below reaches every element on the way up. */
  lemma {:induction false} DeoptReachesAncestors(el: Element, path: seq<nat>, opts: Options, env: Env)
    requires LowerElement(el, opts, env).Ok?
    requires Descendant(el, path).Some?
    requires RuntimeDirectiveOn(Descendant(el, path).value, opts, env)
    ensures LowerElement(el, opts, env).value.deopt
    ensures |path| > 0 ==> LowerElement(el, opts, env).value.slotFlag == DYNAMIC
    decreases |path|
  {
    if |path| == 0 {
      RuntimeDirectiveDeopts(el, opts, env);
    } else {
      var c := el.children[path[0]].child;
      DescendantLowers(el, [path[0]], opts, env);
      assert Descendant(el, [path[0]]) == Some(c);
      DeoptReachesAncestors(c, path[1..], opts, env);
      DeoptPropagates(el, opts, env, path[0]);
    }
  }

  // ---------------------------------------------------------------------------
  // Concrete shapes

  lemma OneChild(c: Child, opts: Options, env: Env)
    requires LowerChild(c, opts, env).Ok?
    ensures var o := LowerChild(c, opts, env).value;
      GetChildren([c], opts, env) == Ok(ChildrenOut(Kept(o.value), o.deopt))
  {
    assert [c][1..] == [];
    var o := LowerChild(c, opts, env).value;
    assert Kept(o.value) + [] == Kept(o.value);
  }

  /** An element with neither attributes nor children: `createVNode(tag, null, null)`, with no flags. */
  lemma EmptyElement(tag: Expr, isComponent: bool, opts: Options, env: Env)
    ensures var el := Element(tag, isComponent, [], []);
      LowerElement(el, opts, env) ==
        Ok(Lowered(CallExpression(HelperRef(if isComponent then "createVNode" else "createElementVNode"),
                                  [tag, NullLiteral, NullLiteral], false), STABLE, 0, false))
  {
    var el := Element(tag, isComponent, [], []);
    var pr := PropsResult(tag, NullLiteral, isComponent, None, [], 0, []);
    assert BuildPropsSpec(el, opts, env) == Ok(pr);
    assert GetChildren([], opts, env) == Ok(ChildrenOut([], false));
    assert ChildrenShape(el, [], None, isComponent, STABLE, opts, env) == Shape(None, STABLE);
    assert !HasRuntimeDirective([]);
    var l := Finish(pr, Shape(None, STABLE), false, opts);
    assert LowerElement(el, opts, env) == Ok(l);
    assert SlotPatchFlag(0, STABLE) == 0;
    CreateCallShape(isComponent, tag, NullLiteral, None, 0, [], opts);
    assert l.call.arguments == [tag, NullLiteral, NullLiteral];
  }

  /**
   * A component whose only child is an object literal uses that object as its
   * slots; the slot flag is what the classifier says about its entries, it is
   * appended as `_` when optimizing, and DYNAMIC sets DYNAMIC_SLOTS.
   */
  lemma ObjectSlotsChild(tag: Expr, ps: seq<Property>, opts: Options, env: Env)
    ensures var el := Element(tag, true, [], [JsxExpressionContainer(ObjectExpression(ps))]);
      var flag := Classify(EntriesOf(ps), STABLE);
      LowerElement(el, opts, env) ==
        Ok(Lowered(CallExpression(HelperRef("createVNode"),
                                  [tag, NullLiteral, ObjectExpression(ps + SlotFlagProps(flag, opts))] +
                                  (if flag == DYNAMIC && opts.optimize then [NumericLiteral(1024)] else []), false),
                   flag, if flag == DYNAMIC then DYNAMIC_SLOTS else 0, false))
  {
    var el := Element(tag, true, [], [JsxExpressionContainer(ObjectExpression(ps))]);
    var flag := Classify(EntriesOf(ps), STABLE);
    assert LowerChild(el.children[0], opts, env) == Ok(ChildOut(Some(ObjectExpression(ps)), false));
    OneChild(el.children[0], opts, env);
    assert Kept(Some(ObjectExpression(ps))) == [ObjectExpression(ps)];
    var kids := ChildrenOut([ObjectExpression(ps)], false);
    assert GetChildren(el.children, opts, env) == Ok(kids);
    var pr := PropsResult(tag, NullLiteral, true, None, [], 0, []);
    assert BuildPropsSpec(el, opts, env) == Ok(pr);
    var shape := ChildrenShape(el, kids.expressions, None, true, STABLE, opts, env);
    assert shape == Shape(Some(ObjectExpression(ps + SlotFlagProps(flag, opts))), flag);
    var patchFlag: Mask := if flag == DYNAMIC then DYNAMIC_SLOTS else 0;
    assert patchFlag == SlotPatchFlag(pr.patchFlag, shape.slotFlag);
    var l := Finish(pr, shape, false, opts);
    assert LowerElement(el, opts, env) == Ok(l);
    assert !HasRuntimeDirective([]);
    CreateCallShape(true, tag, NullLiteral, shape.child, patchFlag, [], opts);
    assert l.call.arguments == [tag, NullLiteral, ObjectExpression(ps + SlotFlagProps(flag, opts))] +
                               (if flag == DYNAMIC && opts.optimize then [NumericLiteral(1024)] else []);
  }
}
