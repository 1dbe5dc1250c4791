/**
 * Lowering of one JSX element into a vnode creation call: the attribute scan
 * that builds the props expression and the patch flag (buildProps), the
 * children list (getChildren) and the slot-shape, slot-flag and call
 * assembly decisions (transformJSXElement).
 *
 * The functions are the reference definitions; the methods BuildProps,
 * ExpandModels, NormalizeClassStyle and TransformElement are the step-by-step
 * versions of the source and are proved equal to them.
 */
module Transform {
  import opened Wrappers
  import opened SlotFlags
  import opened PatchFlags

  // ---------------------------------------------------------------------------
  // Expression trees: the values the pass reads and the code it emits

  datatype Expr =
    | NullLiteral
    | BooleanLiteral(truth: bool)
    | StringLiteral(str: string)
    | NumericLiteral(num: int)
    | Identifier(name: string)
    | HelperRef(helper: string)                // a runtime helper imported on first use
    | ObjectExpression(properties: seq<Property>)
    | ArrayExpression(elements: seq<Expr>)
    | CallExpression(callee: Expr, arguments: seq<Expr>, hasLoc: bool)
    | ArrowFunctionExpression(params: seq<string>, body: Expr)
    | FunctionExpression(fnId: nat)             // a `function` expression of the program
    | ConditionalExpression(test: Expr, consequent: Expr, alternate: Expr)
    | MemberExpression(obj: Expr, member: string)
    | AssignmentExpression(target: Expr, assignedValue: Expr)
    | BinaryPlus(lhs: Expr, rhs: Expr)
    | JSXEmptyExpression
    | OtherExpression(exprId: nat)              // any other expression of the program

  datatype Property =
    | ObjectProperty(key: Expr, value: Expr, computed: bool)
    | SpreadElement(argument: Expr)
    | ObjectMethod(methodKey: Expr, methodComputed: bool)

  // ---------------------------------------------------------------------------
  // The element tree

  datatype AttrValue =
    | NoValue                                   // a bare attribute
    | StringValue(raw: string)
    | ContainerValue(expression: Expr)          // `{expr}`, as the container transform yields it
    | ElementValue(element: Element)            // a JSX element used as the value
    | OtherAttrValue                            // any other value node (a fragment)

  datatype Attr =
    | JsxAttribute(name: string, value: AttrValue)
    | JsxSpreadAttribute(spread: Expr)

  datatype Child =
    | JsxText(text: Option<string>)             // the text transform's result, None when it yields nothing
    | JsxExpressionContainer(contained: Expr)
    | JsxSpreadChild(spreadChild: Expr)         // the spread-child transform's result
    | JsxElement(child: Element)
    | UnsupportedChild(kind: string)            // a node type the pass has no rule for

  datatype Element = Element(tag: Expr, isComponent: bool, attributes: seq<Attr>, children: seq<Child>)

  /** The plugin options the core reads (defaults: false, true, true, false). */
  datatype Options = Options(optimize: bool, mergeProps: bool, enableObjectSlots: bool, transformOn: bool)

  /** One value bound by `v-model` / `v-models`, with its argument and its modifiers in insertion order. */
  datatype Binding = Binding(value: Expr, arg: Expr, modifiers: seq<string>)

  type Bindings = s: seq<Binding> | |s| > 0 witness [Binding(NullLiteral, NullLiteral, [])]

  /** What the directive parser reports for a directive attribute. */
  datatype Parsed = Parsed(directiveName: string, directive: Option<seq<Expr>>, bindings: Bindings)

  /**
   * The collaborators the core calls but does not define: utils, the directive
   * parser, the spread-attribute transform and the scope's fresh names.
   */
  datatype Env = Env(
    isConstant: Option<Expr> -> bool,
    isOn: string -> bool,
    isDirective: string -> bool,
    parseDirectives: (Expr, bool, string, Option<Expr>) -> Result<Parsed>,
    dedupeProperties: (seq<Property>, bool) -> seq<Property>,
    spreadMergeArgs: Expr -> seq<Expr>,         // what a spread appends to the merge arguments
    spreadProperties: Expr -> seq<Property>,    // what a spread appends to the properties when not merging
    buildIIFE: seq<Expr> -> seq<Expr>,
    transformText: string -> string,
    slotUid: Element -> string)

  // ---------------------------------------------------------------------------
  // Small helpers

  function LowerChar(c: char): char {
    if 'A' <= c <= 'Z' then (c as int + 32) as char else c
  }

  /** `toLowerCase` on ASCII letters. */
  function LowerAscii(s: string): (r: string)
    ensures |r| == |s|
  {
    seq(|s|, i requires 0 <= i < |s| => LowerChar(s[i]))
  }

  /** Does the name match `/^xlink([A-Z])/`? */
  predicate IsXlinkName(name: string) {
    |name| >= 6 && name[..5] == "xlink" && 'A' <= name[5] <= 'Z'
  }

  /** `xlinkHref` becomes `xlink:href`; other names are unchanged. */
  function XlinkName(name: string): string {
    if IsXlinkName(name) then "xlink:" + [LowerChar(name[5])] + name[6..] else name
  }

  /** `Set.add` on an insertion-ordered set. */
  function AddName(names: seq<string>, n: string): (r: seq<string>)
    ensures n in r
    ensures forall m :: m in r <==> m in names || m == n
  {
    if n in names then names else names + [n]
  }

  predicate NoDuplicates(names: seq<string>) {
    forall i, j :: 0 <= i < j < |names| ==> names[i] != names[j]
  }

  /** `attributeValue || t.booleanLiteral(true)`. */
  function ValueOrTrue(value: Option<Expr>): Expr {
    if value.Some? then value.value else BooleanLiteral(true)
  }

  /** `(propName as t.StringLiteral)?.value || fallback`. */
  function LiteralOr(propName: Expr, fallback: string): string {
    if propName.StringLiteral? && propName.str != "" then propName.str else fallback
  }

  // ---------------------------------------------------------------------------
  // Patch-flag composition (transform-vue-jsx.ts:271-294)

  function ComputePatchFlag(hasDynamicKeys: bool, hasClassBinding: bool, hasStyleBinding: bool,
                            hasDynamicNames: bool, hasHydrationEventBinding: bool,
                            hasRef: bool, hasDirectives: bool): (flag: Mask)
    ensures Has(flag, FULL_PROPS) <==> hasDynamicKeys
    ensures Has(flag, CLASS) <==> !hasDynamicKeys && hasClassBinding
    ensures Has(flag, STYLE) <==> !hasDynamicKeys && hasStyleBinding
    ensures Has(flag, PROPS) <==> !hasDynamicKeys && hasDynamicNames
    ensures Has(flag, HYDRATE_EVENTS) <==> !hasDynamicKeys && hasHydrationEventBinding
    ensures Has(flag, NEED_PATCH) <==>
      !hasDynamicKeys && !hasClassBinding && !hasStyleBinding && !hasDynamicNames && (hasRef || hasDirectives)
    ensures flag & !(CLASS | STYLE | PROPS | FULL_PROPS | HYDRATE_EVENTS | NEED_PATCH) == 0
    ensures hasDynamicKeys ==> flag == FULL_PROPS
  {
    var base: Mask :=
      if hasDynamicKeys then FULL_PROPS
      else ((if hasClassBinding then CLASS else 0)
          | (if hasStyleBinding then STYLE else 0)
          | (if hasDynamicNames then PROPS else 0)
          | (if hasHydrationEventBinding then HYDRATE_EVENTS else 0));
    if (base == 0 || base == HYDRATE_EVENTS) && (hasRef || hasDirectives) then base | NEED_PATCH else base
  }

  // ---------------------------------------------------------------------------
  // Props-expression assembly (transform-vue-jsx.ts:296-363)

  /** The in-place rewrite of one property: non-literal `class` and `style` values get normalized. */
  function NormalizeProperty(p: Property): Property {
    if p.ObjectProperty? && p.key.StringLiteral? then
      if p.key.str == "class" && !p.value.StringLiteral? then
        p.(value := CallExpression(HelperRef("normalizeClass"), [p.value], false))
      else if p.key.str == "style" && !p.value.StringLiteral? && !p.value.ObjectExpression? then
        p.(value := CallExpression(HelperRef("normalizeStyle"), [p.value], false))
      else p
    else p
  }

  function NormalizedProperties(ps: seq<Property>): (r: seq<Property>)
    ensures |r| == |ps|
  {
    seq(|ps|, i requires 0 <= i < |ps| => NormalizeProperty(ps[i]))
  }

  /** The loop at 333-361: rewrites the values of the object's properties in place. */
  method NormalizeClassStyle(a: array<Property>)
    modifies a
    ensures a[..] == NormalizedProperties(old(a[..]))
  {
    for i := 0 to a.Length
      invariant forall k :: 0 <= k < i ==> a[k] == NormalizeProperty(old(a[k]))
      invariant forall k :: i <= k < a.Length ==> a[k] == old(a[k])
    {
      var property := a[i];
      if !property.ObjectProperty? || !property.key.StringLiteral? {
        continue;
      }
      if property.key.str == "class" {
        if !property.value.StringLiteral? {
          a[i] := property.(value := CallExpression(HelperRef("normalizeClass"), [property.value], false));
        }
      } else if property.key.str == "style" {
        if !property.value.StringLiteral? && !property.value.ObjectExpression? {
          a[i] := property.(value := CallExpression(HelperRef("normalizeStyle"), [property.value], false));
        }
      }
    }
  }

  /** The merge arguments once the trailing properties are flushed into them. */
  function FinalMergeArgs(mergeArgs: seq<Expr>, properties: seq<Property>, mergeProps: bool, env: Env): seq<Expr> {
    if |properties| > 0 then mergeArgs + [ObjectExpression(env.dedupeProperties(properties, mergeProps))]
    else mergeArgs
  }

  function AssembleProps(mergeArgs: seq<Expr>, properties: seq<Property>, isComponent: bool,
                         mergeProps: bool, env: Env): Expr
  {
    if |mergeArgs| > 0 then
      var args := FinalMergeArgs(mergeArgs, properties, mergeProps, env);
      if |args| > 1 then CallExpression(HelperRef("mergeProps"), args, false)
      else if isComponent then args[0]
      else CallExpression(HelperRef("normalizeProps"),
                          [CallExpression(HelperRef("guardReactiveProps"), [args[0]], false)], false)
    else if |properties| > 0 then
      if |properties| == 1 && properties[0].SpreadElement? then properties[0].argument
      else ObjectExpression(NormalizedProperties(env.dedupeProperties(properties, mergeProps)))
    else NullLiteral
  }

  // ---------------------------------------------------------------------------
  // The attribute scan (transform-vue-jsx.ts:46-269), one attribute at a time

  /** The state the scan carries from one attribute to the next. */
  datatype Acc = Acc(
    properties: seq<Property>,
    mergeArgs: seq<Expr>,
    directives: seq<Expr>,
    dynamicPropNames: seq<string>,
    slots: Option<Expr>,
    hasRef: bool,
    hasClassBinding: bool,
    hasStyleBinding: bool,
    hasHydrationEventBinding: bool,
    hasDynamicKeys: bool)

  const InitAcc := Acc([], [], [], [], None, false, false, false, false, false)

  /** What `buildProps` returns. */
  datatype PropsResult = PropsResult(
    tag: Expr,
    props: Expr,
    isComponent: bool,
    slots: Option<Expr>,
    directives: seq<Expr>,
    patchFlag: Mask,
    dynamicPropNames: seq<string>)

  /** The part of the scan state the `v-model` expansion updates. */
  datatype ModelOut = ModelOut(properties: seq<Property>, dynamicPropNames: seq<string>, hasDynamicKeys: bool)

  /** Is the `v-model` argument an expression rather than a string or null literal (a computed target)? */
  predicate IsDynamicArg(propName: Expr) {
    !propName.StringLiteral? && !propName.NullLiteral?
  }

  function ModifierProperties(modifiers: seq<string>): (r: seq<Property>)
    ensures |r| == |modifiers|
  {
    seq(|modifiers|, i requires 0 <= i < |modifiers| =>
      ObjectProperty(StringLiteral(modifiers[i]), BooleanLiteral(true), false))
  }

  /** The key of the `onUpdate:<arg>` handler. */
  function UpdateName(propName: Expr): Expr {
    if IsDynamicArg(propName) then BinaryPlus(StringLiteral("onUpdate:"), propName)
    else StringLiteral("onUpdate:" + LiteralOr(propName, "modelValue"))
  }

  /** `$event => value = $event`. */
  function UpdateHandler(value: Expr): Expr {
    ArrowFunctionExpression(["$event"], AssignmentExpression(value, Identifier("$event")))
  }

  /** The expansion of one bound value (transform-vue-jsx.ts:155-236). */
  function ModelStep(m: ModelOut, b: Binding, hasDirective: bool): ModelOut {
    var propName := b.arg;
    var isDynamic := IsDynamicArg(propName);
    var m1 :=
      if !hasDirective then
        var withValue := m.properties +
          [ObjectProperty(if propName.NullLiteral? then StringLiteral("modelValue") else propName, b.value, isDynamic)];
        var names := if !isDynamic then AddName(m.dynamicPropNames, LiteralOr(propName, "modelValue"))
                     else m.dynamicPropNames;
        var withModifiers :=
          if |b.modifiers| > 0 then
            withValue + [ObjectProperty(
              if isDynamic then BinaryPlus(propName, StringLiteral("Modifiers"))
              else StringLiteral(LiteralOr(propName, "model") + "Modifiers"),
              ObjectExpression(ModifierProperties(b.modifiers)),
              isDynamic)]
          else withValue;
        m.(properties := withModifiers, dynamicPropNames := names)
      else m;
    var updateName := UpdateName(propName);
    var m2 := m1.(properties := m1.properties + [ObjectProperty(updateName, UpdateHandler(b.value), isDynamic)]);
    if !isDynamic then m2.(dynamicPropNames := AddName(m2.dynamicPropNames, updateName.str))
    else m2.(hasDynamicKeys := true)
  }

  function ModelsFold(m: ModelOut, bindings: seq<Binding>, hasDirective: bool): ModelOut
    decreases |bindings|
  {
    if |bindings| == 0 then m else ModelsFold(ModelStep(m, bindings[0], hasDirective), bindings[1..], hasDirective)
  }

  /** The `values.forEach` loop of the `v-model` / `v-models` expansion. */
  method ExpandModels(bindings: seq<Binding>, hasDirective: bool, properties0: seq<Property>,
                      names0: seq<string>, hasDynamicKeys0: bool)
    returns (properties: seq<Property>, dynamicPropNames: seq<string>, hasDynamicKeys: bool)
    ensures ModelOut(properties, dynamicPropNames, hasDynamicKeys)
         == ModelsFold(ModelOut(properties0, names0, hasDynamicKeys0), bindings, hasDirective)
  {
    properties, dynamicPropNames, hasDynamicKeys := properties0, names0, hasDynamicKeys0;
    for index := 0 to |bindings|
      invariant ModelsFold(ModelOut(properties0, names0, hasDynamicKeys0), bindings, hasDirective)
             == ModelsFold(ModelOut(properties, dynamicPropNames, hasDynamicKeys), bindings[index..], hasDirective)
    {
      assert bindings[index..][1..] == bindings[index + 1..];
      var value := bindings[index].value;
      var propName := bindings[index].arg;
      var modifiers := bindings[index].modifiers;
      var isDynamic := !propName.StringLiteral? && !propName.NullLiteral?;
      if !hasDirective {
        properties := properties +
          [ObjectProperty(if propName.NullLiteral? then StringLiteral("modelValue") else propName, value, isDynamic)];
        if !isDynamic {
          dynamicPropNames := AddName(dynamicPropNames, LiteralOr(propName, "modelValue"));
        }
        if |modifiers| > 0 {
          properties := properties + [ObjectProperty(
            if isDynamic then BinaryPlus(propName, StringLiteral("Modifiers"))
            else StringLiteral(LiteralOr(propName, "model") + "Modifiers"),
            ObjectExpression(ModifierProperties(modifiers)),
            isDynamic)];
        }
      }
      var updateName := if isDynamic then BinaryPlus(StringLiteral("onUpdate:"), propName)
                        else StringLiteral("onUpdate:" + LiteralOr(propName, "modelValue"));
      properties := properties + [ObjectProperty(updateName, UpdateHandler(value), isDynamic)];
      if !isDynamic {
        dynamicPropNames := AddName(dynamicPropNames, updateName.str);
      } else {
        hasDynamicKeys := true;
      }
    }
  }

  /** A listener on a plain element other than `onClick` and `onUpdate:modelValue` needs hydration (87-97). */
  function MarkHydration(acc: Acc, name: string, isComponent: bool, env: Env): Acc {
    if !isComponent && env.isOn(name) && LowerAscii(name) != "onclick" && name != "onUpdate:modelValue" then
      acc.(hasHydrationEventBinding := true)
    else acc
  }

  /** A ref, a plain element's class or style, or else an ordinary prop name (99-107). */
  function RecordBinding(acc: Acc, name: string, isComponent: bool, env: Env): Acc {
    if name == "ref" then acc.(hasRef := true)
    else if name == "class" && !isComponent then acc.(hasClassBinding := true)
    else if name == "style" && !isComponent then acc.(hasStyleBinding := true)
    else if name != "key" && !env.isDirective(name) && name != "on" then
      acc.(dynamicPropNames := AddName(acc.dynamicPropNames, name))
    else acc
  }

  /** Dynamic-name and binding-flag bookkeeping for an attribute whose value is not constant, or a ref (86-108). */
  function Bookkeep(acc: Acc, name: string, value: Option<Expr>, isComponent: bool, env: Env): Acc {
    if !env.isConstant(value) || name == "ref" then
      RecordBinding(MarkHydration(acc, name, isComponent, env), name, isComponent, env)
    else acc
  }

  /** A custom directive is collected; `v-html` and `v-text` become `innerHTML` / `textContent` props (140-153). */
  function DirectiveEffect(acc: Acc, p: Parsed): Acc {
    if p.directive.Some? then acc.(directives := acc.directives + [ArrayExpression(p.directive.value)])
    else if p.directiveName == "html" then
      acc.(properties := acc.properties + [ObjectProperty(StringLiteral("innerHTML"), p.bindings[0].value, false)],
           dynamicPropNames := AddName(acc.dynamicPropNames, "innerHTML"))
    else if p.directiveName == "text" then
      acc.(properties := acc.properties + [ObjectProperty(StringLiteral("textContent"), p.bindings[0].value, false)],
           dynamicPropNames := AddName(acc.dynamicPropNames, "textContent"))
    else acc
  }

  /** `v-model` / `v-models` expand into value, modifier and update-handler props (154-237). */
  function ModelEffect(acc: Acc, p: Parsed): Acc {
    if p.directiveName == "models" || p.directiveName == "model" then
      var m := ModelsFold(ModelOut(acc.properties, acc.dynamicPropNames, acc.hasDynamicKeys),
                          p.bindings, p.directive.Some?);
      acc.(properties := m.properties, dynamicPropNames := m.dynamicPropNames, hasDynamicKeys := m.hasDynamicKeys)
    else acc
  }

  /** A parsed directive's effect (136-237): `v-slots` only records the slots value. */
  function DirectiveStep(acc: Acc, p: Parsed, value: Option<Expr>): Acc {
    if p.directiveName == "slots" then acc.(slots := value)
    else ModelEffect(DirectiveEffect(acc, p), p)
  }

  /** A named attribute after its bookkeeping: the transformOn helper, a directive, or a plain property. */
  function AttributeStep(acc: Acc, name: string, value: Option<Expr>, el: Element, opts: Options, env: Env): Result<Acc> {
    if opts.transformOn && (name == "on" || name == "nativeOn") then
      Ok(acc.(mergeArgs := acc.mergeArgs + [CallExpression(HelperRef("transformOn"), [ValueOrTrue(value)], false)]))
    else if env.isDirective(name) then
      match env.parseDirectives(el.tag, el.isComponent, name, value)
      case Err(m) => Err(m)
      case Ok(p) => Ok(DirectiveStep(acc, p, value))
    else
      Ok(acc.(properties := acc.properties + [ObjectProperty(StringLiteral(XlinkName(name)), ValueOrTrue(value), false)]))
  }

  /** A spread attribute: flush the properties into a merge argument, then hand the spread on. */
  function SpreadStep(acc: Acc, spread: Expr, opts: Options, env: Env): Acc {
    var flushed :=
      if |acc.properties| > 0 && opts.mergeProps then
        acc.(mergeArgs := acc.mergeArgs + [ObjectExpression(env.dedupeProperties(acc.properties, opts.mergeProps))],
             properties := [])
      else acc;
    if opts.mergeProps then flushed.(hasDynamicKeys := true, mergeArgs := flushed.mergeArgs + env.spreadMergeArgs(spread))
    else flushed.(hasDynamicKeys := true, properties := flushed.properties + env.spreadProperties(spread))
  }

  function Step(acc: Acc, a: Attr, el: Element, opts: Options, env: Env): Result<Acc>
    decreases a
  {
    match a
    case JsxSpreadAttribute(spread) => Ok(SpreadStep(acc, spread, opts, env))
    case JsxAttribute(name, v) =>
      match AttributeValue(v, opts, env)
      case Err(m) => Err(m)
      case Ok(value) => AttributeStep(Bookkeep(acc, name, value, el.isComponent, env), name, value, el, opts, env)
  }

  function ScanAttrs(acc: Acc, attrs: seq<Attr>, el: Element, opts: Options, env: Env): Result<Acc>
    decreases attrs
  {
    if |attrs| == 0 then Ok(acc)
    else match Step(acc, attrs[0], el, opts, env)
      case Err(m) => Err(m)
      case Ok(acc1) => ScanAttrs(acc1, attrs[1..], el, opts, env)
  }

  /** Reference definition of `buildProps`. */
  function BuildPropsSpec(el: Element, opts: Options, env: Env): Result<PropsResult>
    decreases el, 1
  {
    if |el.attributes| == 0 then Ok(PropsResult(el.tag, NullLiteral, el.isComponent, None, [], 0, []))
    else match ScanAttrs(InitAcc, el.attributes, el, opts, env)
      case Err(m) => Err(m)
      case Ok(acc) => Ok(PropsResult(
        el.tag,
        AssembleProps(acc.mergeArgs, acc.properties, el.isComponent, opts.mergeProps, env),
        el.isComponent,
        acc.slots,
        acc.directives,
        ComputePatchFlag(acc.hasDynamicKeys, acc.hasClassBinding, acc.hasStyleBinding, |acc.dynamicPropNames| > 0,
                         acc.hasHydrationEventBinding, acc.hasRef, |acc.directives| > 0),
        acc.dynamicPropNames))
  }

  /** `getJSXAttributeValue` (transform-vue-jsx.ts:28-44); None stands for `null`. */
  function AttributeValue(v: AttrValue, opts: Options, env: Env): Result<Option<Expr>>
    decreases v
  {
    match v
    case ElementValue(el) =>
      (match LowerElement(el, opts, env)
       case Err(m) => Err(m)
       case Ok(l) => Ok(Some(l.call)))
    case StringValue(raw) => Ok(Some(StringLiteral(env.transformText(raw))))
    case ContainerValue(e) => Ok(Some(e))
    case NoValue => Ok(None)
    case OtherAttrValue => Ok(None)
  }

  // ---------------------------------------------------------------------------
  // Children (transform-vue-jsx.ts:381-428)

  /** The lowered children, and whether some direct element child asks its ancestors to deoptimize. */
  datatype ChildrenOut = ChildrenOut(expressions: seq<Expr>, deopt: bool)

  /** One child's value before filtering, and its deoptimization request. */
  datatype ChildOut = ChildOut(value: Option<Expr>, deopt: bool)

  function LowerChild(c: Child, opts: Options, env: Env): Result<ChildOut>
    decreases c
  {
    match c
    case JsxText(text) =>
      Ok(ChildOut(if text.Some? then Some(CallExpression(HelperRef("createTextVNode"), [StringLiteral(text.value)], false))
                  else None, false))
    case JsxExpressionContainer(e) => Ok(ChildOut(Some(e), false))
    case JsxSpreadChild(e) => Ok(ChildOut(Some(e), false))
    case JsxElement(el) =>
      (match LowerElement(el, opts, env)
       case Err(m) => Err(m)
       case Ok(l) => Ok(ChildOut(Some(l.call), l.deopt)))
    case UnsupportedChild(kind) => Err("getChildren: " + kind + " is not supported")
  }

  /** The filter: `value != null && !t.isJSXEmptyExpression(value)`. */
  function Kept(value: Option<Expr>): seq<Expr> {
    if value.Some? && !value.value.JSXEmptyExpression? then [value.value] else []
  }

  function GetChildren(cs: seq<Child>, opts: Options, env: Env): Result<ChildrenOut>
    decreases cs
  {
    if |cs| == 0 then Ok(ChildrenOut([], false))
    else match LowerChild(cs[0], opts, env)
      case Err(m) => Err(m)
      case Ok(first) =>
        match GetChildren(cs[1..], opts, env)
        case Err(m) => Err(m)
        case Ok(rest) => Ok(ChildrenOut(Kept(first.value) + rest.expressions, first.deopt || rest.deopt))
  }

  // ---------------------------------------------------------------------------
  // Element lowering (transform-vue-jsx.ts:430-639)

  /** The lowered element, its final slot flag and patch flag, and whether it deoptimizes its ancestors. */
  datatype Lowered = Lowered(call: Expr, slotFlag: SlotFlag, patchFlag: Mask, deopt: bool)

  /** A children representation and the slot flag it leaves behind. */
  datatype Shape = Shape(child: Option<Expr>, slotFlag: SlotFlag)

  /** A directive descriptor whose first element calls `_resolveDirective` (a directive resolved at run time). */
  predicate IsResolvedAtRuntime(d: Expr) {
    d.ArrayExpression? && |d.elements| > 0 && d.elements[0].CallExpression? &&
    d.elements[0].callee == Identifier("_resolveDirective")
  }

  predicate HasRuntimeDirective(directives: seq<Expr>) {
    exists i :: 0 <= i < |directives| && IsResolvedAtRuntime(directives[i])
  }

  function EntryOfValue(v: Expr): SlotValue {
    match v
    case MemberExpression(obj, _) => Member(obj == Identifier("slots"))
    case ConditionalExpression(test, _, _) => Cond(test.MemberExpression? && test.obj == Identifier("slots"))
    case _ => OtherValue
  }

  /** What the slot-flag classifier sees of an object literal's property. */
  function EntryOf(p: Property): SlotEntry {
    match p
    case SpreadElement(arg) => Spread(arg == Identifier("slots"))
    case ObjectMethod(_, computed) => Method(computed)
    case ObjectProperty(_, v, computed) => Prop(computed, EntryOfValue(v))
  }

  function EntriesOf(ps: seq<Property>): (r: seq<SlotEntry>)
    ensures |r| == |ps| && forall i :: 0 <= i < |ps| ==> r[i] == EntryOf(ps[i])
  {
    seq(|ps|, i requires 0 <= i < |ps| => EntryOf(ps[i]))
  }

  /** `default: () => [...]`. */
  function DefaultSlot(elements: seq<Expr>): Property {
    ObjectProperty(Identifier("default"), ArrowFunctionExpression([], ArrayExpression(elements)), false)
  }

  /** The trailing `_: <slot flag>` property, present only when optimizing. */
  function SlotFlagProps(flag: SlotFlag, opts: Options): seq<Property> {
    if opts.optimize then [ObjectProperty(Identifier("_"), NumericLiteral(flag.Value()), false)] else []
  }

  /** The slot flag after a `v-slots` value is merged into the slots object (493-502). */
  function SlotsValueFlag(slots: Expr, slotFlag: SlotFlag): SlotFlag {
    if slots.ObjectExpression? then Classify(EntriesOf(slots.properties), slotFlag)
    else if slotFlag == DYNAMIC then slotFlag
    else if slots == Identifier("slots") then FORWARDED
    else DYNAMIC
  }

  /** The properties a `v-slots` value contributes: its own entries, or a spread of it. */
  function SlotsValueProperties(slots: Expr): seq<Property> {
    if slots.ObjectExpression? then slots.properties else [SpreadElement(slots)]
  }

  /** Several children, or a `v-slots` value (468-510). */
  function ManyChildrenShape(children: seq<Expr>, slots: Option<Expr>, isComponent: bool, seed: SlotFlag,
                             opts: Options, env: Env): Shape
  {
    if !isComponent then Shape(Some(ArrayExpression(children)), seed)
    else if |children| == 0 && !opts.optimize then Shape(slots, seed)
    else
      var defaults := if |children| > 0 then [DefaultSlot(env.buildIIFE(children))] else [];
      var flag := if slots.Some? then SlotsValueFlag(slots.value, seed) else seed;
      var spliced := if slots.Some? then SlotsValueProperties(slots.value) else [];
      Shape(Some(ObjectExpression(defaults + spliced + SlotFlagProps(flag, opts))), flag)
  }

  /** Exactly one child (511-610). */
  function SingleChildShape(el: Element, child: Expr, isComponent: bool, seed: SlotFlag,
                            opts: Options, env: Env): Shape
  {
    var objectExpression := ObjectExpression([DefaultSlot(env.buildIIFE([child]))] + SlotFlagProps(seed, opts));
    if child.Identifier? && isComponent then
      if opts.enableObjectSlots then
        Shape(Some(ConditionalExpression(CallExpression(HelperRef("isSlot"), [child], false), child, objectExpression)), seed)
      else Shape(Some(objectExpression), seed)
    else if child.CallExpression? && child.hasLoc && isComponent then
      if opts.enableObjectSlots then
        var slotId := Identifier(env.slotUid(el));
        var alternate := ObjectExpression([DefaultSlot(env.buildIIFE([slotId]))] + SlotFlagProps(seed, opts));
        Shape(Some(ConditionalExpression(
          CallExpression(HelperRef("isSlot"), [AssignmentExpression(slotId, child)], false), slotId, alternate)), seed)
      else Shape(Some(objectExpression), seed)
    else if child.FunctionExpression? || child.ArrowFunctionExpression? then
      Shape(Some(ObjectExpression([ObjectProperty(Identifier("default"), child, false)] + SlotFlagProps(seed, opts))), seed)
    else if child.ObjectExpression? then
      var flag := Classify(EntriesOf(child.properties), seed);
      Shape(Some(ObjectExpression(child.properties + SlotFlagProps(flag, opts))), flag)
    else if isComponent then
      Shape(Some(ObjectExpression([ObjectProperty(Identifier("default"), ArrowFunctionExpression([], ArrayExpression([child])), false)]
                                  + SlotFlagProps(seed, opts))), seed)
    else Shape(Some(ArrayExpression([child])), seed)
  }

  function ChildrenShape(el: Element, children: seq<Expr>, slots: Option<Expr>, isComponent: bool,
                         seed: SlotFlag, opts: Options, env: Env): Shape
  {
    if |children| > 1 || slots.Some? then ManyChildrenShape(children, slots, isComponent, seed, opts, env)
    else if |children| == 1 then SingleChildShape(el, children[0], isComponent, seed, opts, env)
    else Shape(None, seed)
  }

  /** The elements of an argument list that are present (`.filter((v) => !!v)`). */
  function Present(xs: seq<Option<Expr>>): (r: seq<Expr>)
    ensures |r| <= |xs|
  {
    if |xs| == 0 then [] else (if xs[0].Some? then [xs[0].value] else []) + Present(xs[1..])
  }

  function NameLiterals(names: seq<string>): (r: seq<Expr>)
    ensures |r| == |names|
  {
    seq(|names|, i requires 0 <= i < |names| => StringLiteral(names[i]))
  }

  /** The `createVNode` / `createElementVNode` call (616-629). */
  function CreateCall(isComponent: bool, tag: Expr, props: Expr, child: Option<Expr>, patchFlag: Mask,
                      dynamicPropNames: seq<string>, opts: Options): Expr
  {
    CallExpression(
      HelperRef(if isComponent then "createVNode" else "createElementVNode"),
      Present([Some(tag), Some(props), Some(if child.Some? then child.value else NullLiteral),
               if patchFlag != 0 && opts.optimize then Some(NumericLiteral(patchFlag as int)) else None,
               if |dynamicPropNames| > 0 && opts.optimize then Some(ArrayExpression(NameLiterals(dynamicPropNames))) else None]),
      false)
  }

  /** The finished call, wrapped in `withDirectives` when there are directives (631-638). */
  function WrapDirectives(call: Expr, directives: seq<Expr>): Expr {
    if |directives| == 0 then call
    else CallExpression(HelperRef("withDirectives"), [call, ArrayExpression(directives)], false)
  }

  /** The props' patch flag with DYNAMIC_SLOTS added for DYNAMIC slots (612-614). */
  function SlotPatchFlag(propsFlag: Mask, slotFlag: SlotFlag): Mask {
    if slotFlag == DYNAMIC then propsFlag | DYNAMIC_SLOTS else propsFlag
  }

  /** The call once the props and the children shape are known (612-638). */
  function Finish(pr: PropsResult, shape: Shape, deopt: bool, opts: Options): Lowered {
    var patchFlag := SlotPatchFlag(pr.patchFlag, shape.slotFlag);
    var call := CreateCall(pr.isComponent, pr.tag, pr.props, shape.child, patchFlag, pr.dynamicPropNames, opts);
    Lowered(WrapDirectives(call, pr.directives), shape.slotFlag, patchFlag, HasRuntimeDirective(pr.directives) || deopt)
  }

  /** Reference definition of `transformJSXElement`: children first, then props, then the call. */
  function LowerElement(el: Element, opts: Options, env: Env): Result<Lowered>
    decreases el, 2
  {
    match GetChildren(el.children, opts, env)
    case Err(m) => Err(m)
    case Ok(kids) =>
      match BuildPropsSpec(el, opts, env)
      case Err(m) => Err(m)
      case Ok(pr) =>
        var seed := if kids.deopt then DYNAMIC else STABLE;
        Ok(Finish(pr, ChildrenShape(el, kids.expressions, pr.slots, pr.isComponent, seed, opts, env), kids.deopt, opts))
  }

  // ---------------------------------------------------------------------------
  // The step-by-step versions

  /** The dynamic-name and binding-flag bookkeeping of a named attribute (86-108). */
  method BookkeepAttribute(acc: Acc, name: string, value: Option<Expr>, isComponent: bool, env: Env) returns (r: Acc)
    ensures r == Bookkeep(acc, name, value, isComponent, env)
  {
    r := acc;
    if !env.isConstant(value) || name == "ref" {
      if !isComponent && env.isOn(name) && LowerAscii(name) != "onclick" && name != "onUpdate:modelValue" {
        r := r.(hasHydrationEventBinding := true);
      }
      if name == "ref" {
        r := r.(hasRef := true);
      } else if name == "class" && !isComponent {
        r := r.(hasClassBinding := true);
      } else if name == "style" && !isComponent {
        r := r.(hasStyleBinding := true);
      } else if name != "key" && !env.isDirective(name) && name != "on" {
        r := r.(dynamicPropNames := AddName(r.dynamicPropNames, name));
      }
    }
  }

  /** The effect of a parsed directive (136-237). */
  method DirectiveAttribute(acc: Acc, p: Parsed, value: Option<Expr>) returns (r: Acc)
    ensures r == DirectiveStep(acc, p, value)
  {
    r := acc;
    if p.directiveName == "slots" {
      r := r.(slots := value);
      return;
    }
    if p.directive.Some? {
      r := r.(directives := r.directives + [ArrayExpression(p.directive.value)]);
    } else if p.directiveName == "html" {
      r := r.(properties := r.properties + [ObjectProperty(StringLiteral("innerHTML"), p.bindings[0].value, false)],
              dynamicPropNames := AddName(r.dynamicPropNames, "innerHTML"));
    } else if p.directiveName == "text" {
      r := r.(properties := r.properties + [ObjectProperty(StringLiteral("textContent"), p.bindings[0].value, false)],
              dynamicPropNames := AddName(r.dynamicPropNames, "textContent"));
    }
    if p.directiveName == "models" || p.directiveName == "model" {
      var properties, dynamicPropNames, hasDynamicKeys :=
        ExpandModels(p.bindings, p.directive.Some?, r.properties, r.dynamicPropNames, r.hasDynamicKeys);
      r := r.(properties := properties, dynamicPropNames := dynamicPropNames, hasDynamicKeys := hasDynamicKeys);
    }
  }

  /**
   * A named attribute once its value is known: the bookkeeping, then the
   * transformOn helper, a directive or a plain property (86-250).
   */
  method NamedAttribute(acc: Acc, name: string, value: Option<Expr>, el: Element, opts: Options, env: Env)
    returns (r: Result<Acc>)
    ensures r == AttributeStep(Bookkeep(acc, name, value, el.isComponent, env), name, value, el, opts, env)
  {
    var kept := BookkeepAttribute(acc, name, value, el.isComponent, env);
    if opts.transformOn && (name == "on" || name == "nativeOn") {
      r := Ok(kept.(mergeArgs := kept.mergeArgs + [CallExpression(HelperRef("transformOn"), [ValueOrTrue(value)], false)]));
    } else if env.isDirective(name) {
      var parsed := env.parseDirectives(el.tag, el.isComponent, name, value);
      if parsed.Err? {
        return Err(parsed.message);
      }
      var next := DirectiveAttribute(kept, parsed.value, value);
      r := Ok(next);
    } else {
      r := Ok(kept.(properties := kept.properties + [ObjectProperty(StringLiteral(XlinkName(name)), ValueOrTrue(value), false)]));
    }
  }

  /** A spread attribute (252-268). */
  method SpreadAttribute(acc: Acc, spread: Expr, opts: Options, env: Env) returns (r: Acc)
    ensures r == SpreadStep(acc, spread, opts, env)
  {
    var mergeProps := opts.mergeProps;
    var properties, mergeArgs := acc.properties, acc.mergeArgs;
    if |properties| > 0 && mergeProps {
      mergeArgs := mergeArgs + [ObjectExpression(env.dedupeProperties(properties, mergeProps))];
      properties := [];
    }
    var hasDynamicKeys := true;
    if mergeProps {
      mergeArgs := mergeArgs + env.spreadMergeArgs(spread);
    } else {
      properties := properties + env.spreadProperties(spread);
    }
    r := acc.(properties := properties, mergeArgs := mergeArgs, hasDynamicKeys := hasDynamicKeys);
  }

  /**
   * One round of the attribute loop (the `props.forEach` callback). The
   * callback's shared locals are the fields of the scan state.
   */
  method ScanAttribute(acc: Acc, prop: Attr, el: Element, opts: Options, env: Env) returns (r: Result<Acc>)
    ensures r == Step(acc, prop, el, opts, env)
  {
    if prop.JsxAttribute? {
      var attributeValue := AttributeValue(prop.value, opts, env);
      if attributeValue.Err? {
        return Err(attributeValue.message);
      }
      r := NamedAttribute(acc, prop.name, attributeValue.value, el, opts, env);
    } else {
      var next := SpreadAttribute(acc, prop.spread, opts, env);
      r := Ok(next);
    }
  }

  /** The props-expression assembly after the loop (296-363). */
  method BuildPropsExpression(mergeArgs0: seq<Expr>, properties: seq<Property>, isComponent: bool,
                              mergeProps: bool, env: Env) returns (propsExpression: Expr)
    ensures propsExpression == AssembleProps(mergeArgs0, properties, isComponent, mergeProps, env)
  {
    var mergeArgs := mergeArgs0;
    propsExpression := NullLiteral;
    if |mergeArgs| > 0 {
      if |properties| > 0 {
        mergeArgs := mergeArgs + [ObjectExpression(env.dedupeProperties(properties, mergeProps))];
      }
      if |mergeArgs| > 1 {
        propsExpression := CallExpression(HelperRef("mergeProps"), mergeArgs, false);
      } else if isComponent {
        propsExpression := mergeArgs[0];
      } else {
        propsExpression := CallExpression(HelperRef("normalizeProps"),
                             [CallExpression(HelperRef("guardReactiveProps"), [mergeArgs[0]], false)], false);
      }
    } else if |properties| > 0 {
      if |properties| == 1 && properties[0].SpreadElement? {
        propsExpression := properties[0].argument;
      } else {
        var deduped := env.dedupeProperties(properties, mergeProps);
        var objectProperties := new Property[|deduped|](k requires 0 <= k < |deduped| => deduped[k]);
        assert objectProperties[..] == deduped;
        NormalizeClassStyle(objectProperties);
        propsExpression := ObjectExpression(objectProperties[..]);
      }
    }
  }

  /** `buildProps`: the attribute loop, the patch-flag analysis and the props assembly. */
  method BuildProps(el: Element, opts: Options, env: Env) returns (r: Result<PropsResult>)
    ensures r == BuildPropsSpec(el, opts, env)
  {
    var tag := el.tag;
    var isComponent := el.isComponent;
    var props := el.attributes;
    var patchFlag: Mask := 0;

    if |props| == 0 {
      return Ok(PropsResult(tag, NullLiteral, isComponent, None, [], patchFlag, []));
    }

    var acc := InitAcc;
    var i := 0;
    while i < |props|
      invariant 0 <= i <= |props|
      invariant ScanAttrs(InitAcc, props, el, opts, env) == ScanAttrs(acc, props[i..], el, opts, env)
    {
      assert props[i..][0] == props[i] && props[i..][1..] == props[i + 1..];
      var next := ScanAttribute(acc, props[i], el, opts, env);
      if next.Err? {
        return Err(next.message);
      }
      acc := next.value;
      i := i + 1;
    }

    // patchFlag analysis
    if acc.hasDynamicKeys {
      patchFlag := patchFlag | FULL_PROPS;
    } else {
      if acc.hasClassBinding {
        patchFlag := patchFlag | CLASS;
      }
      if acc.hasStyleBinding {
        patchFlag := patchFlag | STYLE;
      }
      if |acc.dynamicPropNames| > 0 {
        patchFlag := patchFlag | PROPS;
      }
      if acc.hasHydrationEventBinding {
        patchFlag := patchFlag | HYDRATE_EVENTS;
      }
    }
    if (patchFlag == 0 || patchFlag == HYDRATE_EVENTS) && (acc.hasRef || |acc.directives| > 0) {
      patchFlag := patchFlag | NEED_PATCH;
    }

    var propsExpression := BuildPropsExpression(acc.mergeArgs, acc.properties, isComponent, opts.mergeProps, env);
    r := Ok(PropsResult(tag, propsExpression, isComponent, acc.slots, acc.directives, patchFlag, acc.dynamicPropNames));
  }

  /** The one-child branch of the children-shape decision (511-610). */
  method SingleChild(el: Element, child: Expr, isComponent: bool, slotFlag0: SlotFlag, opts: Options, env: Env)
    returns (vnodeChild: Option<Expr>, slotFlag: SlotFlag)
    ensures Shape(vnodeChild, slotFlag) == SingleChildShape(el, child, isComponent, slotFlag0, opts, env)
  {
    slotFlag := slotFlag0;
    var enableObjectSlots := opts.enableObjectSlots;
    var objectExpression := ObjectExpression([DefaultSlot(env.buildIIFE([child]))] + SlotFlagProps(slotFlag, opts));
    if child.Identifier? && isComponent {
      if enableObjectSlots {
        vnodeChild := Some(ConditionalExpression(CallExpression(HelperRef("isSlot"), [child], false), child, objectExpression));
      } else {
        vnodeChild := Some(objectExpression);
      }
    } else if child.CallExpression? && child.hasLoc && isComponent {
      if enableObjectSlots {
        var slotId := Identifier(env.slotUid(el));
        var alternate := ObjectExpression([DefaultSlot(env.buildIIFE([slotId]))] + SlotFlagProps(slotFlag, opts));
        var assignment := AssignmentExpression(slotId, child);
        var condition := CallExpression(HelperRef("isSlot"), [assignment], false);
        vnodeChild := Some(ConditionalExpression(condition, slotId, alternate));
      } else {
        vnodeChild := Some(objectExpression);
      }
    } else if child.FunctionExpression? || child.ArrowFunctionExpression? {
      vnodeChild := Some(ObjectExpression([ObjectProperty(Identifier("default"), child, false)] + SlotFlagProps(slotFlag, opts)));
    } else if child.ObjectExpression? {
      slotFlag := DetermineSlotFlags(EntriesOf(child.properties), slotFlag);
      vnodeChild := Some(ObjectExpression(child.properties + SlotFlagProps(slotFlag, opts)));
    } else {
      var arrayChild := ArrayExpression([child]);
      if isComponent {
        vnodeChild := Some(ObjectExpression(
          [ObjectProperty(Identifier("default"), ArrowFunctionExpression([], arrayChild), false)] + SlotFlagProps(slotFlag, opts)));
      } else {
        vnodeChild := Some(arrayChild);
      }
    }
  }

  /** The children-shape decision (468-610): what becomes the vnode's children and the final slot flag. */
  method ShapeChildren(el: Element, children: seq<Expr>, slots: Option<Expr>, isComponent: bool,
                       slotFlag0: SlotFlag, opts: Options, env: Env)
    returns (vnodeChild: Option<Expr>, slotFlag: SlotFlag)
    ensures Shape(vnodeChild, slotFlag) == ChildrenShape(el, children, slots, isComponent, slotFlag0, opts, env)
  {
    slotFlag := slotFlag0;
    vnodeChild := None;
    var optimize := opts.optimize;
    if |children| > 1 || slots.Some? {
      if !isComponent {
        vnodeChild := Some(ArrayExpression(children));
      } else if |children| == 0 && !optimize {
        vnodeChild := slots;
      } else {
        var objectProperties: seq<Property> := [];
        if |children| > 0 {
          objectProperties := objectProperties + [DefaultSlot(env.buildIIFE(children))];
        }
        ghost var defaults := objectProperties;
        assert defaults == (if |children| > 0 then [DefaultSlot(env.buildIIFE(children))] else []);
        if slots.Some? {
          if slots.value.ObjectExpression? {
            slotFlag := DetermineSlotFlags(EntriesOf(slots.value.properties), slotFlag);
            objectProperties := objectProperties + slots.value.properties;
          } else {
            slotFlag := if slotFlag == DYNAMIC then slotFlag
                        else if slots.value == Identifier("slots") then FORWARDED
                        else DYNAMIC;
            objectProperties := objectProperties + [SpreadElement(slots.value)];
          }
        }
        ghost var withSlots := objectProperties;
        if optimize {
          objectProperties := objectProperties + [ObjectProperty(Identifier("_"), NumericLiteral(slotFlag.Value()), false)];
        }
        assert withSlots == defaults + (if slots.Some? then SlotsValueProperties(slots.value) else []);
        assert objectProperties == withSlots + SlotFlagProps(slotFlag, opts);
        vnodeChild := Some(ObjectExpression(objectProperties));
      }
    } else if |children| == 1 {
      vnodeChild, slotFlag := SingleChild(el, children[0], isComponent, slotFlag, opts, env);
    }
  }

  /** The patch-flag update, the `createVNode` call and the `withDirectives` wrapper (612-638). */
  method FinishElement(pr: PropsResult, vnodeChild: Option<Expr>, slotFlag: SlotFlag, deopt: bool, opts: Options)
    returns (r: Lowered)
    ensures r == Finish(pr, Shape(vnodeChild, slotFlag), deopt, opts)
  {
    var patchFlag := pr.patchFlag;
    if slotFlag == DYNAMIC {
      patchFlag := patchFlag | DYNAMIC_SLOTS;
    }
    assert patchFlag == SlotPatchFlag(pr.patchFlag, slotFlag);
    var createVNode := CreateCall(pr.isComponent, pr.tag, pr.props, vnodeChild, patchFlag, pr.dynamicPropNames, opts);
    var call := createVNode;
    if |pr.directives| > 0 {
      call := CallExpression(HelperRef("withDirectives"), [createVNode, ArrayExpression(pr.directives)], false);
    }
    r := Lowered(call, slotFlag, patchFlag, HasRuntimeDirective(pr.directives) || deopt);
  }

  /** `transformJSXElement`: children (lowered by GetChildren), props, then the call. */
  method TransformElement(el: Element, opts: Options, env: Env) returns (r: Result<Lowered>)
    ensures r == LowerElement(el, opts, env)
  {
    var children := GetChildren(el.children, opts, env);
    if children.Err? {
      return Err(children.message);
    }
    var built := BuildProps(el, opts, env);
    if built.Err? {
      return Err(built.message);
    }
    var pr := built.value;
    // a descendant's runtime-resolved directive deoptimizes this element
    var slotFlag := if children.value.deopt then DYNAMIC else STABLE;
    var vnodeChild;
    vnodeChild, slotFlag := ShapeChildren(el, children.value.expressions, pr.slots, pr.isComponent, slotFlag, opts, env);
    var lowered := FinishElement(pr, vnodeChild, slotFlag, children.value.deopt, opts);
    r := Ok(lowered);
  }
}
