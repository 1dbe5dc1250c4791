/**
 * Properties of the attribute scan of `buildProps`: which attributes set which
 * binding flag, what ends up in the dynamic-prop-name list, and what the patch
 * flag then says about the element's attributes.
 */
module ScanProofs {
  import opened Wrappers
  import opened PatchFlags
  import opened Transform

  /** The binding flags the scan raises and never lowers. */
  datatype Flag = RefFlag | ClassFlag | StyleFlag | HydrationFlag | DynamicKeysFlag

  function FlagOf(acc: Acc, f: Flag): bool {
    match f
    case RefFlag => acc.hasRef
    case ClassFlag => acc.hasClassBinding
    case StyleFlag => acc.hasStyleBinding
    case HydrationFlag => acc.hasHydrationEventBinding
    case DynamicKeysFlag => acc.hasDynamicKeys
  }

  predicate HasDynamicBinding(bindings: seq<Binding>) {
    exists i :: 0 <= i < |bindings| && IsDynamicArg(bindings[i].arg)
  }

  /** Does the transformOn option take this attribute (so it is neither a directive nor a property)? */
  predicate TakenByTransformOn(name: string, opts: Options) {
    opts.transformOn && (name == "on" || name == "nativeOn")
  }

  /** An independent description of the named attributes, with the given value, that raise each flag. */
  predicate NamedSetsFlag(name: string, value: Option<Expr>, f: Flag, el: Element, opts: Options, env: Env) {
    match f
    case RefFlag => name == "ref"
    case ClassFlag => name == "class" && !el.isComponent && !env.isConstant(value)
    case StyleFlag => name == "style" && !el.isComponent && !env.isConstant(value)
    case HydrationFlag =>
      !el.isComponent && env.isOn(name) && LowerAscii(name) != "onclick" && name != "onUpdate:modelValue" &&
      (!env.isConstant(value) || name == "ref")
    case DynamicKeysFlag =>
      !TakenByTransformOn(name, opts) && env.isDirective(name) &&
      var parsed := env.parseDirectives(el.tag, el.isComponent, name, value);
      parsed.Ok? && (parsed.value.directiveName == "model" || parsed.value.directiveName == "models") &&
      HasDynamicBinding(parsed.value.bindings)
  }

  /** Spread attributes make the keys dynamic; named ones as described above. */
  predicate SetsFlag(a: Attr, f: Flag, el: Element, opts: Options, env: Env) {
    match a
    case JsxSpreadAttribute(_) => f == DynamicKeysFlag
    case JsxAttribute(name, v) =>
      var av := AttributeValue(v, opts, env);
      av.Ok? && NamedSetsFlag(name, av.value, f, el, opts, env)
  }

  predicate AnySets(attrs: seq<Attr>, f: Flag, el: Element, opts: Options, env: Env) {
    exists i :: 0 <= i < |attrs| && SetsFlag(attrs[i], f, el, opts, env)
  }

  // ---------------------------------------------------------------------------
  // Names an attribute contributes, described without the accumulator

  function BindingNames(b: Binding, hasDirective: bool): set<string> {
    if IsDynamicArg(b.arg) then {}
    else (if hasDirective then {} else {LiteralOr(b.arg, "modelValue")}) + {"onUpdate:" + LiteralOr(b.arg, "modelValue")}
  }

  function ModelNames(bindings: seq<Binding>, hasDirective: bool): set<string>
    decreases |bindings|
  {
    if |bindings| == 0 then {} else BindingNames(bindings[0], hasDirective) + ModelNames(bindings[1..], hasDirective)
  }

  function EffectNames(p: Parsed): set<string> {
    if p.directive.None? && p.directiveName == "html" then {"innerHTML"}
    else if p.directive.None? && p.directiveName == "text" then {"textContent"}
    else {}
  }

  function DirectiveNames(p: Parsed): set<string> {
    if p.directiveName == "slots" then {}
    else (EffectNames(p) +
          if p.directiveName == "models" || p.directiveName == "model" then ModelNames(p.bindings, p.directive.Some?) else {})
  }

  /** An attribute's own name is a dynamic prop when its value is not constant and it is an ordinary prop. */
  function OwnName(name: string, value: Option<Expr>, isComponent: bool, env: Env): set<string> {
    if !env.isConstant(value) && name != "ref" && name != "key" && name != "on" && !env.isDirective(name) &&
       !(!isComponent && (name == "class" || name == "style"))
    then {name} else {}
  }

  /** The names a directive attribute's expansion contributes. */
  function ExpansionNames(name: string, value: Option<Expr>, el: Element, opts: Options, env: Env): set<string> {
    if !TakenByTransformOn(name, opts) && env.isDirective(name) then
      match env.parseDirectives(el.tag, el.isComponent, name, value)
      case Err(_) => {}
      case Ok(p) => DirectiveNames(p)
    else {}
  }

  function NamedNames(name: string, value: Option<Expr>, el: Element, opts: Options, env: Env): set<string> {
    OwnName(name, value, el.isComponent, env) + ExpansionNames(name, value, el, opts, env)
  }

  function AttrNames(a: Attr, el: Element, opts: Options, env: Env): set<string> {
    match a
    case JsxSpreadAttribute(_) => {}
    case JsxAttribute(name, v) =>
      match AttributeValue(v, opts, env)
      case Err(_) => {}
      case Ok(value) => NamedNames(name, value, el, opts, env)
  }

  function AllNames(attrs: seq<Attr>, el: Element, opts: Options, env: Env): set<string>
    decreases |attrs|
  {
    if |attrs| == 0 then {} else AttrNames(attrs[0], el, opts, env) + AllNames(attrs[1..], el, opts, env)
  }

  // ---------------------------------------------------------------------------
  // Sequence facts

  lemma AddNameKeepsDistinct(names: seq<string>, n: string)
    requires NoDuplicates(names)
    ensures NoDuplicates(AddName(names, n))
  {
    if n !in names {
      var r := names + [n];
      forall i, j | 0 <= i < j < |r| ensures r[i] != r[j] {
        if j == |names| {
          assert r[i] == names[i];
        }
      }
    }
  }

  lemma HasDynamicBindingCons(bindings: seq<Binding>)
    requires |bindings| > 0
    ensures HasDynamicBinding(bindings) <==> IsDynamicArg(bindings[0].arg) || HasDynamicBinding(bindings[1..])
  {
    if HasDynamicBinding(bindings[1..]) {
      var i :| 0 <= i < |bindings[1..]| && IsDynamicArg(bindings[1..][i].arg);
      assert bindings[i + 1] == bindings[1..][i];
    }
    if HasDynamicBinding(bindings) {
      var i :| 0 <= i < |bindings| && IsDynamicArg(bindings[i].arg);
      if i > 0 {
        assert bindings[1..][i - 1] == bindings[i];
      }
    }
  }

  lemma AnySetsCons(attrs: seq<Attr>, f: Flag, el: Element, opts: Options, env: Env)
    requires |attrs| > 0
    ensures AnySets(attrs, f, el, opts, env) <==> SetsFlag(attrs[0], f, el, opts, env) || AnySets(attrs[1..], f, el, opts, env)
  {
    if AnySets(attrs[1..], f, el, opts, env) {
      var i :| 0 <= i < |attrs[1..]| && SetsFlag(attrs[1..][i], f, el, opts, env);
      assert attrs[i + 1] == attrs[1..][i];
    }
    if AnySets(attrs, f, el, opts, env) {
      var i :| 0 <= i < |attrs| && SetsFlag(attrs[i], f, el, opts, env);
      if i > 0 {
        assert attrs[1..][i - 1] == attrs[i];
      }
    }
  }

  // ---------------------------------------------------------------------------
  // The v-model expansion

  /** The expansion marks the keys dynamic exactly when some bound argument is an expression. */
  lemma {:induction false} ModelsFoldDynamicKeys(m: ModelOut, bindings: seq<Binding>, hasDirective: bool)
    ensures ModelsFold(m, bindings, hasDirective).hasDynamicKeys <==> m.hasDynamicKeys || HasDynamicBinding(bindings)
    decreases |bindings|
  {
    if |bindings| > 0 {
      ModelsFoldDynamicKeys(ModelStep(m, bindings[0], hasDirective), bindings[1..], hasDirective);
      HasDynamicBindingCons(bindings);
    }
  }

  /** The expansion adds exactly the literal-argument names, and keeps the name list free of duplicates. */
  lemma {:induction false} ModelsFoldNames(m: ModelOut, bindings: seq<Binding>, hasDirective: bool)
    requires NoDuplicates(m.dynamicPropNames)
    ensures var r := ModelsFold(m, bindings, hasDirective);
      NoDuplicates(r.dynamicPropNames) &&
      forall n :: n in r.dynamicPropNames <==> n in m.dynamicPropNames || n in ModelNames(bindings, hasDirective)
    decreases |bindings|
  {
    if |bindings| > 0 {
      var b := bindings[0];
      var next := ModelStep(m, b, hasDirective);
      if !IsDynamicArg(b.arg) {
        var first := if hasDirective then m.dynamicPropNames else AddName(m.dynamicPropNames, LiteralOr(b.arg, "modelValue"));
        if !hasDirective {
          AddNameKeepsDistinct(m.dynamicPropNames, LiteralOr(b.arg, "modelValue"));
        }
        AddNameKeepsDistinct(first, "onUpdate:" + LiteralOr(b.arg, "modelValue"));
        assert next.dynamicPropNames == AddName(first, "onUpdate:" + LiteralOr(b.arg, "modelValue"));
      }
      ModelsFoldNames(next, bindings[1..], hasDirective);
    }
  }

  // ---------------------------------------------------------------------------
  // One attribute

  predicate SameFlags(a: Acc, b: Acc) {
    a.hasRef == b.hasRef && a.hasClassBinding == b.hasClassBinding && a.hasStyleBinding == b.hasStyleBinding &&
    a.hasHydrationEventBinding == b.hasHydrationEventBinding && a.hasDynamicKeys == b.hasDynamicKeys
  }

  predicate SameNames(a: Acc, b: Acc) {
    a.dynamicPropNames == b.dynamicPropNames
  }

  lemma MarkHydrationEffect(acc: Acc, name: string, isComponent: bool, env: Env)
    ensures var r := MarkHydration(acc, name, isComponent, env);
      SameNames(r, acc) && r.hasRef == acc.hasRef && r.hasClassBinding == acc.hasClassBinding &&
      r.hasStyleBinding == acc.hasStyleBinding && r.hasDynamicKeys == acc.hasDynamicKeys &&
      (r.hasHydrationEventBinding <==>
        (acc.hasHydrationEventBinding ||
         (!isComponent && env.isOn(name) && LowerAscii(name) != "onclick" && name != "onUpdate:modelValue")))
  {
  }

  lemma RecordBindingFlags(acc: Acc, name: string, isComponent: bool, env: Env)
    ensures var r := RecordBinding(acc, name, isComponent, env);
      (r.hasRef <==> acc.hasRef || name == "ref") &&
      (r.hasClassBinding <==> acc.hasClassBinding || (name == "class" && !isComponent)) &&
      (r.hasStyleBinding <==> acc.hasStyleBinding || (name == "style" && !isComponent)) &&
      r.hasHydrationEventBinding == acc.hasHydrationEventBinding && r.hasDynamicKeys == acc.hasDynamicKeys
  {
  }

  lemma RecordBindingNames(acc: Acc, name: string, isComponent: bool, env: Env)
    requires NoDuplicates(acc.dynamicPropNames)
    ensures var r := RecordBinding(acc, name, isComponent, env);
      NoDuplicates(r.dynamicPropNames) &&
      forall n :: n in r.dynamicPropNames <==>
        n in acc.dynamicPropNames ||
        (n == name && name != "ref" && name != "key" && name != "on" && !env.isDirective(name) &&
         !(!isComponent && (name == "class" || name == "style")))
  {
    AddNameKeepsDistinct(acc.dynamicPropNames, name);
  }

  /** The bookkeeping raises the binding flags as described. */
  lemma BookkeepFlags(acc: Acc, name: string, value: Option<Expr>, el: Element, opts: Options, env: Env)
    ensures var r := Bookkeep(acc, name, value, el.isComponent, env);
      (r.hasRef <==> acc.hasRef || NamedSetsFlag(name, value, RefFlag, el, opts, env)) &&
      (r.hasClassBinding <==> acc.hasClassBinding || NamedSetsFlag(name, value, ClassFlag, el, opts, env)) &&
      (r.hasStyleBinding <==> acc.hasStyleBinding || NamedSetsFlag(name, value, StyleFlag, el, opts, env)) &&
      (r.hasHydrationEventBinding <==>
        acc.hasHydrationEventBinding || NamedSetsFlag(name, value, HydrationFlag, el, opts, env)) &&
      r.hasDynamicKeys == acc.hasDynamicKeys
  {
    if !env.isConstant(value) || name == "ref" {
      MarkHydrationEffect(acc, name, el.isComponent, env);
      RecordBindingFlags(MarkHydration(acc, name, el.isComponent, env), name, el.isComponent, env);
    }
  }

  /** The bookkeeping adds the attribute's own name, if any, and keeps the list free of duplicates. */
  lemma BookkeepNames(acc: Acc, name: string, value: Option<Expr>, el: Element, opts: Options, env: Env)
    requires NoDuplicates(acc.dynamicPropNames)
    ensures var r := Bookkeep(acc, name, value, el.isComponent, env);
      NoDuplicates(r.dynamicPropNames) &&
      forall n :: n in r.dynamicPropNames <==> n in acc.dynamicPropNames || n in OwnName(name, value, el.isComponent, env)
  {
    if !env.isConstant(value) || name == "ref" {
      var marked := MarkHydration(acc, name, el.isComponent, env);
      MarkHydrationEffect(acc, name, el.isComponent, env);
      RecordBindingNames(marked, name, el.isComponent, env);
    }
  }

  lemma DirectiveEffectFlags(acc: Acc, p: Parsed)
    requires NoDuplicates(acc.dynamicPropNames)
    ensures var r := DirectiveEffect(acc, p);
      SameFlags(r, acc) && NoDuplicates(r.dynamicPropNames) &&
      forall n :: n in r.dynamicPropNames <==> n in acc.dynamicPropNames || n in EffectNames(p)
  {
    if p.directive.None? {
      if p.directiveName == "html" {
        AddNameKeepsDistinct(acc.dynamicPropNames, "innerHTML");
      } else if p.directiveName == "text" {
        AddNameKeepsDistinct(acc.dynamicPropNames, "textContent");
      }
    }
  }

  lemma ModelEffectFlags(acc: Acc, p: Parsed)
    requires NoDuplicates(acc.dynamicPropNames)
    ensures var r := ModelEffect(acc, p);
      var isModel := p.directiveName == "models" || p.directiveName == "model";
      r.hasRef == acc.hasRef && r.hasClassBinding == acc.hasClassBinding && r.hasStyleBinding == acc.hasStyleBinding &&
      r.hasHydrationEventBinding == acc.hasHydrationEventBinding &&
      (r.hasDynamicKeys <==> acc.hasDynamicKeys || (isModel && HasDynamicBinding(p.bindings))) &&
      NoDuplicates(r.dynamicPropNames) &&
      forall n :: n in r.dynamicPropNames <==>
        n in acc.dynamicPropNames || (isModel && n in ModelNames(p.bindings, p.directive.Some?))
  {
    if p.directiveName == "models" || p.directiveName == "model" {
      var m := ModelOut(acc.properties, acc.dynamicPropNames, acc.hasDynamicKeys);
      ModelsFoldDynamicKeys(m, p.bindings, p.directive.Some?);
      ModelsFoldNames(m, p.bindings, p.directive.Some?);
    }
  }

  /** A parsed directive changes a flag only when it is a v-model with a dynamic argument, and adds its names. */
  lemma DirectiveStepEffect(acc: Acc, p: Parsed, value: Option<Expr>)
    requires NoDuplicates(acc.dynamicPropNames)
    ensures var r := DirectiveStep(acc, p, value);
      r.hasRef == acc.hasRef && r.hasClassBinding == acc.hasClassBinding && r.hasStyleBinding == acc.hasStyleBinding &&
      r.hasHydrationEventBinding == acc.hasHydrationEventBinding &&
      (r.hasDynamicKeys <==>
        (acc.hasDynamicKeys || ((p.directiveName == "model" || p.directiveName == "models") && HasDynamicBinding(p.bindings)))) &&
      NoDuplicates(r.dynamicPropNames) &&
      forall n :: n in r.dynamicPropNames <==> n in acc.dynamicPropNames || n in DirectiveNames(p)
  {
    if p.directiveName != "slots" {
      var acc1 := DirectiveEffect(acc, p);
      DirectiveEffectFlags(acc, p);
      ModelEffectFlags(acc1, p);
    }
  }

  /** After the bookkeeping, only a v-model with a dynamic argument changes a flag; directives add their names. */
  lemma AttributeStepEffect(kept: Acc, name: string, value: Option<Expr>, el: Element, opts: Options, env: Env)
    requires AttributeStep(kept, name, value, el, opts, env).Ok?
    requires NoDuplicates(kept.dynamicPropNames)
    ensures var r := AttributeStep(kept, name, value, el, opts, env).value;
      (forall f :: f != DynamicKeysFlag ==> FlagOf(r, f) == FlagOf(kept, f)) &&
      (r.hasDynamicKeys <==> kept.hasDynamicKeys || NamedSetsFlag(name, value, DynamicKeysFlag, el, opts, env)) &&
      NoDuplicates(r.dynamicPropNames) &&
      forall n :: n in r.dynamicPropNames <==> n in kept.dynamicPropNames || n in ExpansionNames(name, value, el, opts, env)
  {
    if !TakenByTransformOn(name, opts) && env.isDirective(name) {
      DirectiveStepEffect(kept, env.parseDirectives(el.tag, el.isComponent, name, value).value, value);
    }
  }

  /** An attribute raises a flag exactly when the independent description says so. */
  lemma StepFlag(acc: Acc, a: Attr, el: Element, opts: Options, env: Env, f: Flag)
    requires Step(acc, a, el, opts, env).Ok?
    requires NoDuplicates(acc.dynamicPropNames)
    ensures FlagOf(Step(acc, a, el, opts, env).value, f) <==> FlagOf(acc, f) || SetsFlag(a, f, el, opts, env)
  {
    if a.JsxAttribute? {
      var value := AttributeValue(a.value, opts, env).value;
      BookkeepFlags(acc, a.name, value, el, opts, env);
      BookkeepNames(acc, a.name, value, el, opts, env);
      AttributeStepEffect(Bookkeep(acc, a.name, value, el.isComponent, env), a.name, value, el, opts, env);
    }
  }

  /** An attribute adds exactly its described names to the list, which stays free of duplicates. */
  lemma StepNames(acc: Acc, a: Attr, el: Element, opts: Options, env: Env)
    requires Step(acc, a, el, opts, env).Ok?
    requires NoDuplicates(acc.dynamicPropNames)
    ensures var r := Step(acc, a, el, opts, env).value;
      NoDuplicates(r.dynamicPropNames) &&
      forall n :: n in r.dynamicPropNames <==> n in acc.dynamicPropNames || n in AttrNames(a, el, opts, env)
  {
    if a.JsxAttribute? {
      var value := AttributeValue(a.value, opts, env).value;
      BookkeepNames(acc, a.name, value, el, opts, env);
      AttributeStepEffect(Bookkeep(acc, a.name, value, el.isComponent, env), a.name, value, el, opts, env);
    }
  }

  // ---------------------------------------------------------------------------
  // The whole scan

  lemma {:induction false} ScanFlags(acc: Acc, attrs: seq<Attr>, el: Element, opts: Options, env: Env, f: Flag)
    requires ScanAttrs(acc, attrs, el, opts, env).Ok?
    requires NoDuplicates(acc.dynamicPropNames)
    ensures FlagOf(ScanAttrs(acc, attrs, el, opts, env).value, f) <==> FlagOf(acc, f) || AnySets(attrs, f, el, opts, env)
    decreases attrs
  {
    if |attrs| > 0 {
      var next := Step(acc, attrs[0], el, opts, env).value;
      StepFlag(acc, attrs[0], el, opts, env, f);
      StepNames(acc, attrs[0], el, opts, env);
      ScanFlags(next, attrs[1..], el, opts, env, f);
      AnySetsCons(attrs, f, el, opts, env);
    }
  }

  lemma {:induction false} ScanNames(acc: Acc, attrs: seq<Attr>, el: Element, opts: Options, env: Env)
    requires ScanAttrs(acc, attrs, el, opts, env).Ok?
    requires NoDuplicates(acc.dynamicPropNames)
    ensures var r := ScanAttrs(acc, attrs, el, opts, env).value;
      NoDuplicates(r.dynamicPropNames) &&
      forall n :: n in r.dynamicPropNames <==> n in acc.dynamicPropNames || n in AllNames(attrs, el, opts, env)
    decreases attrs
  {
    if |attrs| > 0 {
      var next := Step(acc, attrs[0], el, opts, env).value;
      StepNames(acc, attrs[0], el, opts, env);
      ScanNames(next, attrs[1..], el, opts, env);
    }
  }

  // ---------------------------------------------------------------------------
  // The v-slots value

  /** A named attribute, with the given value, that the directive parser reports as `v-slots`. */
  predicate NamedIsSlots(name: string, value: Option<Expr>, el: Element, opts: Options, env: Env) {
    !TakenByTransformOn(name, opts) && env.isDirective(name) &&
    var parsed := env.parseDirectives(el.tag, el.isComponent, name, value);
    parsed.Ok? && parsed.value.directiveName == "slots"
  }

  predicate IsSlotsAttr(a: Attr, el: Element, opts: Options, env: Env) {
    a.JsxAttribute? && AttributeValue(a.value, opts, env).Ok? &&
    NamedIsSlots(a.name, AttributeValue(a.value, opts, env).value, el, opts, env)
  }

  /** The slots value a `v-slots` attribute supplies: its own lowered value. */
  function SlotsValueOf(a: Attr, el: Element, opts: Options, env: Env): Option<Expr>
    requires IsSlotsAttr(a, el, opts, env)
  {
    AttributeValue(a.value, opts, env).value
  }

  /** The slots, the props being collected and the dynamic-keys flag are the same. */
  predicate SameProps(a: Acc, b: Acc) {
    a.slots == b.slots && a.properties == b.properties && a.mergeArgs == b.mergeArgs &&
    a.directives == b.directives && a.hasDynamicKeys == b.hasDynamicKeys
  }

  lemma MarkHydrationKeepsProps(acc: Acc, name: string, isComponent: bool, env: Env)
    ensures SameProps(MarkHydration(acc, name, isComponent, env), acc)
  {
  }

  lemma RecordBindingKeepsProps(acc: Acc, name: string, isComponent: bool, env: Env)
    ensures SameProps(RecordBinding(acc, name, isComponent, env), acc)
  {
  }

  /** The bookkeeping touches neither the slots nor the props being collected. */
  lemma BookkeepKeepsProps(acc: Acc, name: string, value: Option<Expr>, isComponent: bool, env: Env)
    ensures SameProps(Bookkeep(acc, name, value, isComponent, env), acc)
  {
    if !env.isConstant(value) || name == "ref" {
      var marked := MarkHydration(acc, name, isComponent, env);
      MarkHydrationKeepsProps(acc, name, isComponent, env);
      RecordBindingKeepsProps(marked, name, isComponent, env);
    }
  }

  lemma NamedSlotsStep(kept: Acc, name: string, value: Option<Expr>, el: Element, opts: Options, env: Env)
    requires NamedIsSlots(name, value, el, opts, env)
    ensures AttributeStep(kept, name, value, el, opts, env) == Ok(kept.(slots := value))
  {
  }

  lemma NamedOtherKeepsSlots(kept: Acc, name: string, value: Option<Expr>, el: Element, opts: Options, env: Env)
    requires !NamedIsSlots(name, value, el, opts, env)
    requires AttributeStep(kept, name, value, el, opts, env).Ok?
    ensures AttributeStep(kept, name, value, el, opts, env).value.slots == kept.slots
  {
    if !TakenByTransformOn(name, opts) && env.isDirective(name) {
      var p := env.parseDirectives(el.tag, el.isComponent, name, value).value;
      assert DirectiveEffect(kept, p).slots == kept.slots;
      assert ModelEffect(DirectiveEffect(kept, p), p).slots == kept.slots;
    }
  }

  /**
   * A `v-slots` attribute records its value as the slots and adds no
   * property, merge argument or directive, and does not make the keys dynamic.
   */
  lemma SlotsStep(acc: Acc, a: Attr, el: Element, opts: Options, env: Env)
    requires IsSlotsAttr(a, el, opts, env)
    ensures Step(acc, a, el, opts, env).Ok?
    ensures var r := Step(acc, a, el, opts, env).value;
      r.slots == SlotsValueOf(a, el, opts, env) &&
      r.properties == acc.properties && r.mergeArgs == acc.mergeArgs && r.directives == acc.directives &&
      r.hasDynamicKeys == acc.hasDynamicKeys
  {
    var value := AttributeValue(a.value, opts, env).value;
    var kept := Bookkeep(acc, a.name, value, el.isComponent, env);
    assert Step(acc, a, el, opts, env) == AttributeStep(kept, a.name, value, el, opts, env);
    BookkeepKeepsProps(acc, a.name, value, el.isComponent, env);
    NamedSlotsStep(kept, a.name, value, el, opts, env);
  }

  /** Every other attribute leaves the slots as they were. */
  lemma OtherStepKeepsSlots(acc: Acc, a: Attr, el: Element, opts: Options, env: Env)
    requires !IsSlotsAttr(a, el, opts, env)
    requires Step(acc, a, el, opts, env).Ok?
    ensures Step(acc, a, el, opts, env).value.slots == acc.slots
  {
    if a.JsxAttribute? {
      var value := AttributeValue(a.value, opts, env).value;
      var kept := Bookkeep(acc, a.name, value, el.isComponent, env);
      assert Step(acc, a, el, opts, env) == AttributeStep(kept, a.name, value, el, opts, env);
      BookkeepKeepsProps(acc, a.name, value, el.isComponent, env);
      NamedOtherKeepsSlots(kept, a.name, value, el, opts, env);
    }
  }

  /** After the loop the slots are those of the last `v-slots` attribute, or unchanged when there is none. */
  lemma {:induction false} ScanSlots(acc: Acc, attrs: seq<Attr>, el: Element, opts: Options, env: Env)
    requires ScanAttrs(acc, attrs, el, opts, env).Ok?
    ensures var r := ScanAttrs(acc, attrs, el, opts, env).value;
      ((forall i :: 0 <= i < |attrs| ==> !IsSlotsAttr(attrs[i], el, opts, env)) ==> r.slots == acc.slots) &&
      (forall i :: 0 <= i < |attrs| && IsSlotsAttr(attrs[i], el, opts, env) &&
                   (forall j :: i < j < |attrs| ==> !IsSlotsAttr(attrs[j], el, opts, env)) ==>
                     r.slots == SlotsValueOf(attrs[i], el, opts, env))
    decreases attrs
  {
    if |attrs| > 0 {
      var next := Step(acc, attrs[0], el, opts, env).value;
      if IsSlotsAttr(attrs[0], el, opts, env) {
        SlotsStep(acc, attrs[0], el, opts, env);
      } else {
        OtherStepKeepsSlots(acc, attrs[0], el, opts, env);
      }
      ScanSlots(next, attrs[1..], el, opts, env);
      assert forall i :: 1 <= i < |attrs| ==> attrs[i] == attrs[1..][i - 1];
    }
  }

  // ---------------------------------------------------------------------------
  // What buildProps promises

  /**
   * The dynamic-prop names are exactly the names the attributes contribute,
   * each once, like the JS Set the source collects them in.
   */
  lemma DynamicPropNames(el: Element, opts: Options, env: Env)
    requires BuildPropsSpec(el, opts, env).Ok?
    ensures var pr := BuildPropsSpec(el, opts, env).value;
      NoDuplicates(pr.dynamicPropNames) &&
      forall n :: n in pr.dynamicPropNames <==> n in AllNames(el.attributes, el, opts, env)
  {
    if |el.attributes| > 0 {
      ScanNames(InitAcc, el.attributes, el, opts, env);
    }
  }

  /**
   * `buildProps` reports as its slots the value of the last `v-slots`
   * attribute, and none when the element has no such attribute.
   */
  lemma BuildPropsSlots(el: Element, opts: Options, env: Env)
    requires BuildPropsSpec(el, opts, env).Ok?
    ensures var slots := BuildPropsSpec(el, opts, env).value.slots;
      var attrs := el.attributes;
      ((forall i :: 0 <= i < |attrs| ==> !IsSlotsAttr(attrs[i], el, opts, env)) ==> slots.None?) &&
      (forall i :: 0 <= i < |attrs| && IsSlotsAttr(attrs[i], el, opts, env) &&
                   (forall j :: i < j < |attrs| ==> !IsSlotsAttr(attrs[j], el, opts, env)) ==>
                     slots == SlotsValueOf(attrs[i], el, opts, env))
  {
    if |el.attributes| > 0 {
      ScanSlots(InitAcc, el.attributes, el, opts, env);
    }
  }

  /**
   * The patch flag, bit by bit, in terms of the attributes: FULL_PROPS when a
   * spread or a dynamic v-model argument makes the keys dynamic, and otherwise
   * CLASS, STYLE, PROPS and HYDRATE_EVENTS for the bindings that need them,
   * with NEED_PATCH only when none of the first four is set and a ref or a
   * directive is present.
   */
  lemma PatchFlagAnalysis(el: Element, opts: Options, env: Env)
    requires BuildPropsSpec(el, opts, env).Ok?
    ensures var pr := BuildPropsSpec(el, opts, env).value;
      var attrs := el.attributes;
      var dynamicKeys := AnySets(attrs, DynamicKeysFlag, el, opts, env);
      (Has(pr.patchFlag, FULL_PROPS) <==> dynamicKeys) &&
      (Has(pr.patchFlag, CLASS) <==> !dynamicKeys && AnySets(attrs, ClassFlag, el, opts, env)) &&
      (Has(pr.patchFlag, STYLE) <==> !dynamicKeys && AnySets(attrs, StyleFlag, el, opts, env)) &&
      (Has(pr.patchFlag, PROPS) <==> !dynamicKeys && |pr.dynamicPropNames| > 0) &&
      (Has(pr.patchFlag, HYDRATE_EVENTS) <==> !dynamicKeys && AnySets(attrs, HydrationFlag, el, opts, env)) &&
      (Has(pr.patchFlag, NEED_PATCH) <==>
         !dynamicKeys && !AnySets(attrs, ClassFlag, el, opts, env) && !AnySets(attrs, StyleFlag, el, opts, env) &&
         |pr.dynamicPropNames| == 0 && (AnySets(attrs, RefFlag, el, opts, env) || |pr.directives| > 0))
  {
    if |el.attributes| > 0 {
      ScanFlags(InitAcc, el.attributes, el, opts, env, DynamicKeysFlag);
      ScanFlags(InitAcc, el.attributes, el, opts, env, ClassFlag);
      ScanFlags(InitAcc, el.attributes, el, opts, env, StyleFlag);
      ScanFlags(InitAcc, el.attributes, el, opts, env, HydrationFlag);
      ScanFlags(InitAcc, el.attributes, el, opts, env, RefFlag);
    }
  }

  /** A spread attribute makes the keys dynamic: the flag is FULL_PROPS and nothing else. */
  lemma SpreadForcesFullProps(el: Element, opts: Options, env: Env, i: nat)
    requires i < |el.attributes| && el.attributes[i].JsxSpreadAttribute?
    requires BuildPropsSpec(el, opts, env).Ok?
    ensures BuildPropsSpec(el, opts, env).value.patchFlag == FULL_PROPS
  {
    assert SetsFlag(el.attributes[i], DynamicKeysFlag, el, opts, env);
    ScanFlags(InitAcc, el.attributes, el, opts, env, DynamicKeysFlag);
  }

  /** Keys made dynamic by a spread or by a v-model with an expression argument: the flag is exactly FULL_PROPS. */
  lemma DynamicKeysForceFullProps(el: Element, opts: Options, env: Env)
    requires AnySets(el.attributes, DynamicKeysFlag, el, opts, env)
    requires BuildPropsSpec(el, opts, env).Ok?
    ensures BuildPropsSpec(el, opts, env).value.patchFlag == FULL_PROPS
  {
    ScanFlags(InitAcc, el.attributes, el, opts, env, DynamicKeysFlag);
  }

  /** NEED_PATCH never joins CLASS, STYLE, PROPS or FULL_PROPS; at most HYDRATE_EVENTS comes with it. */
  lemma NeedPatchStandsAlone(hasDynamicKeys: bool, hasClassBinding: bool, hasStyleBinding: bool,
                             hasDynamicNames: bool, hasHydrationEventBinding: bool, hasRef: bool, hasDirectives: bool)
    ensures var flag := ComputePatchFlag(hasDynamicKeys, hasClassBinding, hasStyleBinding, hasDynamicNames,
                                         hasHydrationEventBinding, hasRef, hasDirectives);
      Has(flag, NEED_PATCH) ==> flag == NEED_PATCH || flag == NEED_PATCH | HYDRATE_EVENTS
  {
  }

  /** Without attributes: no props (`null`), flag 0, no directives, no names, no slots. */
  lemma EmptyAttributes(el: Element, opts: Options, env: Env)
    requires |el.attributes| == 0
    ensures BuildPropsSpec(el, opts, env) == Ok(PropsResult(el.tag, NullLiteral, el.isComponent, None, [], 0, []))
  {
  }

  /** A non-empty dynamic-prop list is always announced by the flag (PROPS, or FULL_PROPS which subsumes it). */
  lemma NamesNeedAFlag(el: Element, opts: Options, env: Env)
    requires BuildPropsSpec(el, opts, env).Ok?
    requires |BuildPropsSpec(el, opts, env).value.dynamicPropNames| > 0
    ensures var flag := BuildPropsSpec(el, opts, env).value.patchFlag;
      Has(flag, PROPS) || Has(flag, FULL_PROPS)
  {
  }

  /** Components never get CLASS, STYLE or HYDRATE_EVENTS: their class, style and listeners are ordinary props. */
  lemma ComponentFlags(el: Element, opts: Options, env: Env)
    requires el.isComponent
    requires BuildPropsSpec(el, opts, env).Ok?
    ensures var flag := BuildPropsSpec(el, opts, env).value.patchFlag;
      !Has(flag, CLASS) && !Has(flag, STYLE) && !Has(flag, HYDRATE_EVENTS)
  {
    PatchFlagAnalysis(el, opts, env);
  }
}
