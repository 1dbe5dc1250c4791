/**
 * Properties of the props expression `buildProps` assembles and of the
 * attribute-name rewriting it applies.
 */
module PropsProofs {
  import opened Wrappers
  import opened Transform

  // ---------------------------------------------------------------------------
  // class / style normalization

  /** A `class` value after the rewrite: a string literal, or the old value passed through `normalizeClass`. */
  predicate ClassValueNormalized(before: Expr, after: Expr) {
    (before.StringLiteral? && after == before) ||
    (!before.StringLiteral? && after == CallExpression(HelperRef("normalizeClass"), [before], false))
  }

  /** A `style` value after the rewrite: a string or object literal, or the old value through `normalizeStyle`. */
  predicate StyleValueNormalized(before: Expr, after: Expr) {
    ((before.StringLiteral? || before.ObjectExpression?) && after == before) ||
    (!before.StringLiteral? && !before.ObjectExpression? &&
     after == CallExpression(HelperRef("normalizeStyle"), [before], false))
  }

  /**
   * The rewrite keeps every property where it was, with the same kind, key and
   * computed flag; it touches only the values of properties keyed by the string
   * literals `class` and `style`, and those end up normalized.
   */
  lemma NormalizedEntries(ps: seq<Property>)
    ensures var r := NormalizedProperties(ps);
      forall i :: 0 <= i < |ps| ==>
        (ps[i].ObjectProperty? <==> r[i].ObjectProperty?) &&
        (!ps[i].ObjectProperty? ==> r[i] == ps[i]) &&
        (ps[i].ObjectProperty? ==>
           r[i].key == ps[i].key && r[i].computed == ps[i].computed &&
           (ps[i].key == StringLiteral("class") ==> ClassValueNormalized(ps[i].value, r[i].value)) &&
           (ps[i].key == StringLiteral("style") ==> StyleValueNormalized(ps[i].value, r[i].value)) &&
           (ps[i].key != StringLiteral("class") && ps[i].key != StringLiteral("style") ==> r[i] == ps[i]))
  {
  }

  /** In the result, every literal-keyed `class` value is a string literal or a `normalizeClass` call. */
  lemma ClassValuesNormalized(ps: seq<Property>)
    ensures var r := NormalizedProperties(ps);
      forall i :: 0 <= i < |r| && r[i].ObjectProperty? && r[i].key == StringLiteral("class") ==>
        r[i].value.StringLiteral? ||
        (r[i].value.CallExpression? && r[i].value.callee == HelperRef("normalizeClass"))
  {
    NormalizedEntries(ps);
  }

  // ---------------------------------------------------------------------------
  // The props expression

  /**
   * How the props expression is chosen: `null` without props; a lone spread
   * passed through as it is; otherwise an object literal of the deduplicated,
   * normalized properties; and once there are merge arguments, a `mergeProps`
   * call only when there are at least two of them (the properties, when any,
   * as the last), a lone argument passed as it is to a component and through
   * `normalizeProps(guardReactiveProps(...))` to a plain element.
   */
  lemma PropsExpressionShape(mergeArgs: seq<Expr>, properties: seq<Property>, isComponent: bool,
                             mergeProps: bool, env: Env)
    ensures var r := AssembleProps(mergeArgs, properties, isComponent, mergeProps, env);
      var flushed := FinalMergeArgs(mergeArgs, properties, mergeProps, env);
      (|mergeArgs| == 0 && |properties| == 0 ==> r == NullLiteral) &&
      (|mergeArgs| == 0 && |properties| == 1 && properties[0].SpreadElement? ==> r == properties[0].argument) &&
      (|mergeArgs| == 0 && |properties| > 0 && !(|properties| == 1 && properties[0].SpreadElement?) ==>
         r == ObjectExpression(NormalizedProperties(env.dedupeProperties(properties, mergeProps)))) &&
      (|mergeArgs| > 0 ==>
         |flushed| == |mergeArgs| + (if |properties| > 0 then 1 else 0) &&
         flushed[..|mergeArgs|] == mergeArgs &&
         (|properties| > 0 ==> flushed[|mergeArgs|] == ObjectExpression(env.dedupeProperties(properties, mergeProps))) &&
         (|flushed| >= 2 ==> r == CallExpression(HelperRef("mergeProps"), flushed, false)) &&
         (|flushed| == 1 && isComponent ==> r == mergeArgs[0]) &&
         (|flushed| == 1 && !isComponent ==>
            r == CallExpression(HelperRef("normalizeProps"),
                                [CallExpression(HelperRef("guardReactiveProps"), [mergeArgs[0]], false)], false)))
  {
    var flushed := FinalMergeArgs(mergeArgs, properties, mergeProps, env);
    if |mergeArgs| > 0 && |properties| > 0 {
      assert flushed[..|mergeArgs|] == mergeArgs;
    }
  }

  // ---------------------------------------------------------------------------
  // The v-model expansion

  /**
   * The expansion only appends: the properties already collected stay where
   * they are, and each bound value adds its update handler (plus its value and
   * modifiers props when the model has no custom directive).
   */
  lemma {:induction false} ModelsFoldAppends(m: ModelOut, bindings: seq<Binding>, hasDirective: bool)
    ensures var r := ModelsFold(m, bindings, hasDirective);
      |r.properties| >= |m.properties| + |bindings| * (if hasDirective then 1 else 2) &&
      |r.properties| <= |m.properties| + |bindings| * (if hasDirective then 1 else 3) &&
      r.properties[..|m.properties|] == m.properties
    decreases |bindings|
  {
    if |bindings| > 0 {
      var next := ModelStep(m, bindings[0], hasDirective);
      assert next.properties[..|m.properties|] == m.properties;
      ModelsFoldAppends(next, bindings[1..], hasDirective);
      var r := ModelsFold(m, bindings, hasDirective);
      assert r.properties[..|m.properties|] == r.properties[..|next.properties|][..|m.properties|];
    }
  }

  /**
   * A component's `v-model={x}` (no argument, no directive) expands, in this
   * order, into `modelValue: x`, `modelModifiers: {m: true, ...}` when there
   * are modifiers, and `"onUpdate:modelValue": $event => x = $event`, and
   * records both names as dynamic.
   */
  lemma DefaultModelExpansion(m: ModelOut, x: Expr, modifiers: seq<string>)
    ensures ModelsFold(m, [Binding(x, NullLiteral, modifiers)], false) ==
      ModelOut(m.properties + [ObjectProperty(StringLiteral("modelValue"), x, false)] +
               (if |modifiers| > 0 then [ObjectProperty(StringLiteral("model" + "Modifiers"),
                                                        ObjectExpression(ModifierProperties(modifiers)), false)]
                else []) +
               [ObjectProperty(StringLiteral("onUpdate:" + "modelValue"), UpdateHandler(x), false)],
               AddName(AddName(m.dynamicPropNames, "modelValue"), "onUpdate:" + "modelValue"),
               m.hasDynamicKeys)
  {
    var b := Binding(x, NullLiteral, modifiers);
    assert [b][1..] == [];
    assert ModelsFold(m, [b], false) == ModelStep(m, b, false);
    assert LiteralOr(NullLiteral, "modelValue") == "modelValue";
    assert LiteralOr(NullLiteral, "model") == "model";
  }

  /** An expression argument `v-model={[x, arg]}` gives computed keys and names nothing: the keys are dynamic. */
  lemma DynamicArgumentExpansion(m: ModelOut, x: Expr, arg: Expr)
    requires IsDynamicArg(arg)
    ensures ModelsFold(m, [Binding(x, arg, [])], false) ==
      ModelOut(m.properties + [ObjectProperty(arg, x, true),
                               ObjectProperty(BinaryPlus(StringLiteral("onUpdate:"), arg), UpdateHandler(x), true)],
               m.dynamicPropNames, true)
  {
    assert [Binding(x, arg, [])][1..] == [];
  }

  // ---------------------------------------------------------------------------
  // Attribute names

  /**
   * `xlinkHref` becomes `xlink:href`: the prefix gains a colon and the next
   * letter is lower-cased; a name not of that form is kept. The renamed name no
   * longer matches, so renaming twice is renaming once.
   */
  lemma XlinkRenaming(name: string)
    ensures var r := XlinkName(name);
      (IsXlinkName(name) ==>
         |r| == |name| + 1 && r[..6] == "xlink:" && r[6] == LowerChar(name[5]) && r[7..] == name[6..] &&
         'a' <= r[6] <= 'z') &&
      (!IsXlinkName(name) ==> r == name) &&
      !IsXlinkName(r) && XlinkName(r) == r
  {
    var r := XlinkName(name);
    if IsXlinkName(name) {
      assert r[5] == ':';
    }
  }

  /** `toLowerCase` maps exactly the upper-case ASCII letters and keeps the length. */
  lemma LowerAsciiLetters(s: string)
    ensures var r := LowerAscii(s);
      |r| == |s| &&
      forall i :: 0 <= i < |s| ==>
        ('A' <= s[i] <= 'Z' ==> r[i] as int == s[i] as int + 32) &&
        (!('A' <= s[i] <= 'Z') ==> r[i] == s[i]) &&
        !('A' <= r[i] <= 'Z')
  {
  }

  /** `onClick`, `ONCLICK` and `onclick` all name the click listener the hydration flag leaves out. */
  lemma ClickListenerNames()
    ensures LowerAscii("onClick") == "onclick"
    ensures LowerAscii("ONCLICK") == "onclick"
    ensures LowerAscii("onclick") == "onclick"
  {
    assert LowerAscii("onClick") == ['o', 'n', 'c', 'l', 'i', 'c', 'k'];
    assert LowerAscii("ONCLICK") == ['o', 'n', 'c', 'l', 'i', 'c', 'k'];
    assert LowerAscii("onclick") == ['o', 'n', 'c', 'l', 'i', 'c', 'k'];
  }
}
