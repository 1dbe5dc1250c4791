# Vue JSX lowering: props, children, slots and patch flags

This project models the core of the Babel plugin that compiles Vue JSX. That core turns one JSX element into a Vue vnode-creation call:

- `buildProps` scans the element's attributes. It produces the props expression (an object literal, a `mergeProps` call or `null`), the runtime directives, the `v-slots` value, the patch flag and the list of dynamic prop names.
- `getJSXAttributeValue` lowers one attribute value.
- `getChildren` lowers the children and filters out empty ones.
- `transformJSXElement` decides the children or slots representation and the slot flag, with `determineSlotFlags` classifying a slots object literal. It then emits `createVNode` or `createElementVNode`, optionally wrapped in `withDirectives`. A directive resolved at run time (`_resolveDirective`) makes every enclosing element's slots DYNAMIC.

Files:

- `wrappers.dfy`: `Option` and `Result`.
- `patch_flags.dfy`: the patch-flag bits, as 32-bit masks, with the values of Vue's runtime `PatchFlags` enum.
- `slot_flags.dfy`: the slot-flag classifier. It has a reference definition `Classify`, the loop `DetermineSlotFlags` proved equal to it, and the classifier's algebra.
- `transform.dfy`: the expression and element trees, the reference functions for the whole lowering, and the step-by-step methods proved equal to them. Those methods are `BuildProps` with its attribute steps, the in-place `class`/`style` normalization over an array, the `v-model` expansion loop, the children-shape decision and `TransformElement`.
- `scan_proofs.dfy`: what the attribute scan promises. This covers which attributes raise which binding flag, the dynamic-name list (exact and free of duplicates) and the patch flag, bit by bit, in terms of the attributes.
- `props_proofs.dfy`: the props expression's shape, the `v-model` expansion, `class`/`style` normalization and attribute-name rewriting.
- `element_proofs.dfy`: the children outcome, the emitted call's argument layout, the slot-flag escalation, the DYNAMIC_SLOTS bit and the propagation of deoptimization to ancestors.

The utilities the core calls but does not define are fields of the `Transform.Env` datatype: `isConstant`, `isOn`, `isDirective`, `parseDirectives`, `dedupeProperties`, the spread-attribute transform, `buildIIFE`, `transformText` and the generated slot identifier. The proofs hold for every choice of them. The results of the tag, component, text, expression-container and spread-child transforms are part of the input tree instead.

## Model

| member | source | states |
|---|---|---|
| SlotFlags.SlotFlag.Value | packages/babel-plugin-jsx/src/slotFlags.ts:4-24 | the emitted numbers are 1 (STABLE), 2 (DYNAMIC) and 3 (FORWARDED) |
| SlotFlags.Escalate | packages/babel-plugin-jsx/src/slotFlags.ts:81-85 | the result is one of the two flags and at least as high as both in the order STABLE < FORWARDED < DYNAMIC |
| SlotFlags.Combine | packages/babel-plugin-jsx/src/slotFlags.ts:81-85 | the result is DYNAMIC iff dynamic entries were seen or the prior flag is DYNAMIC; otherwise FORWARDED iff forwarded entries were seen or the prior flag is FORWARDED; STABLE only for no entries of either kind and a STABLE prior flag |
| SlotFlags.DetermineSlotFlags | packages/babel-plugin-jsx/src/slotFlags.ts:28-86 | the loop, with its `continue` and `break`, returns the reference classifier's verdict |
| SlotFlags.ClassifyShape | packages/babel-plugin-jsx/src/slotFlags.ts:81-85 | the verdict is DYNAMIC, FORWARDED or the prior flag, and never ranks below the prior flag |
| SlotFlags.DynamicPriorAbsorbs | packages/babel-plugin-jsx/src/slotFlags.ts:81-82 | a DYNAMIC prior flag gives DYNAMIC whatever the entries |
| SlotFlags.ForwardedPriorNeverStable | packages/babel-plugin-jsx/src/slotFlags.ts:83-84 | a FORWARDED prior flag never gives STABLE |
| SlotFlags.EntryKinds | packages/babel-plugin-jsx/src/slotFlags.ts:35-78 | every object entry is exactly one of stable, forwarded (`...slots`, `slots.x`, `slots.x ? a : b`) or dynamic (other spread, computed key, other conditional) |
| SlotFlags.StableEntriesKeepPrior | packages/babel-plugin-jsx/src/slotFlags.ts:52-53 | entries that are all stable, including none at all, give back the prior flag unchanged |
| SlotFlags.ClassifyAppend | packages/babel-plugin-jsx/src/slotFlags.ts:35-79 | classifying a concatenation gives DYNAMIC if the first part has a dynamic entry; otherwise the second part is classified starting from the first part's verdict |
| SlotFlags.DynamicEntryDominates | packages/babel-plugin-jsx/src/slotFlags.ts:46-50 | a dynamic entry anywhere in the object makes the verdict DYNAMIC |
| SlotFlags.ForwardedEntryNeverStable | packages/babel-plugin-jsx/src/slotFlags.ts:37-44 | a forwarded entry anywhere makes the verdict FORWARDED or DYNAMIC |
| SlotFlags.ClassifyMonotonePrior | packages/babel-plugin-jsx/src/slotFlags.ts:81-85 | a higher prior flag never gives a lower verdict |
| SlotFlags.AppendNeverLowers | packages/babel-plugin-jsx/src/slotFlags.ts:35-79 | adding entries after the existing ones never lowers the verdict |
| SlotFlags.ClassifyIsCombine | packages/babel-plugin-jsx/src/slotFlags.ts:32-85 | the verdict is the final combine applied to "some entry is dynamic" and "a forwarded entry comes before the first dynamic one", the two booleans the loop records before it breaks |
| SlotFlags.ExampleVerdicts | packages/babel-plugin-jsx/test/slotFlags.test.ts:4-130 | the verdicts on the test suite's stable, dynamic and (non-skipped) forwarded slot objects |
| Transform.LowerAscii | packages/babel-plugin-jsx/src/transform-vue-jsx.ts:92 | lower-casing keeps the length |
| Transform.AddName | packages/babel-plugin-jsx/src/transform-vue-jsx.ts:106 | `Set.add`: the name is afterwards a member, and membership otherwise is unchanged |
| Transform.ComputePatchFlag | packages/babel-plugin-jsx/src/transform-vue-jsx.ts:271-294 | FULL_PROPS iff the keys are dynamic, and then alone; otherwise CLASS, STYLE, PROPS and HYDRATE_EVENTS each iff its binding was seen; NEED_PATCH iff none of the first four bits is set and a ref or directive is present; no other bit is set |
| Transform.NormalizeClassStyle | packages/babel-plugin-jsx/src/transform-vue-jsx.ts:333-361 | the in-place loop over the properties array leaves exactly the normalized properties |
| Transform.ExpandModels | packages/babel-plugin-jsx/src/transform-vue-jsx.ts:154-237 | the `forEach` over the bound values gives the properties, names and dynamic-keys flag of the reference fold |
| Transform.BookkeepAttribute | packages/babel-plugin-jsx/src/transform-vue-jsx.ts:86-108 | the binding-flag and name bookkeeping of one named attribute equals the reference step |
| Transform.DirectiveAttribute | packages/babel-plugin-jsx/src/transform-vue-jsx.ts:125-237 | a parsed directive's effect (`v-slots`, `v-html`, `v-text`, `v-model`/`v-models`, runtime directives) equals the reference step |
| Transform.NamedAttribute | packages/babel-plugin-jsx/src/transform-vue-jsx.ts:81-250 | a named attribute: bookkeeping, then the transformOn, directive, or plain (xlink-renamed) property branch, as in the reference step |
| Transform.SpreadAttribute | packages/babel-plugin-jsx/src/transform-vue-jsx.ts:252-268 | a spread attribute flushes the pending properties into the merge arguments when merging, makes the keys dynamic, and equals the reference step |
| Transform.ScanAttribute | packages/babel-plugin-jsx/src/transform-vue-jsx.ts:80-269 | one iteration of the attribute loop, with its directive-parser error path, equals the reference step |
| Transform.BuildPropsExpression | packages/babel-plugin-jsx/src/transform-vue-jsx.ts:296-363 | the props-expression assembly equals the reference assembly |
| Transform.BuildProps | packages/babel-plugin-jsx/src/transform-vue-jsx.ts:46-374 | `buildProps`, with the empty-attribute early return and the error path, equals the reference definition |
| Transform.SingleChild | packages/babel-plugin-jsx/src/transform-vue-jsx.ts:511-610 | the single-child branches (identifier, located call, function, object, other) give the reference children and slot flag |
| Transform.ShapeChildren | packages/babel-plugin-jsx/src/transform-vue-jsx.ts:468-610 | the children-shape decision gives the reference children and slot flag |
| Transform.FinishElement | packages/babel-plugin-jsx/src/transform-vue-jsx.ts:612-638 | the DYNAMIC_SLOTS update, the vnode call and the `withDirectives` wrapper equal the reference assembly |
| Transform.TransformElement | packages/babel-plugin-jsx/src/transform-vue-jsx.ts:430-639 | `transformJSXElement` equals the reference lowering `LowerElement` |
| ScanProofs.AddNameKeepsDistinct | packages/babel-plugin-jsx/src/transform-vue-jsx.ts:51 | adding to a duplicate-free name list keeps it duplicate-free and adds at most one entry |
| ScanProofs.ModelsFoldDynamicKeys | packages/babel-plugin-jsx/src/transform-vue-jsx.ts:163-178 | the `v-model` expansion makes the keys dynamic iff they already were or some bound argument is an expression |
| ScanProofs.ModelsFoldNames | packages/babel-plugin-jsx/src/transform-vue-jsx.ts:231-235 | the expansion adds exactly the names of the literal-argument bindings, and a duplicate-free list stays duplicate-free |
| ScanProofs.BookkeepFlags | packages/babel-plugin-jsx/src/transform-vue-jsx.ts:86-104 | the bookkeeping raises each binding flag exactly when the independent description says so, and never lowers one |
| ScanProofs.BookkeepNames | packages/babel-plugin-jsx/src/transform-vue-jsx.ts:105-107 | the bookkeeping adds exactly the attribute's own name when it is a non-constant ordinary prop, and keeps the list duplicate-free |
| ScanProofs.DirectiveStepEffect | packages/babel-plugin-jsx/src/transform-vue-jsx.ts:125-237 | a parsed directive changes a binding flag only by making the keys dynamic, through a `v-model` expression argument, and adds exactly its expansion's names |
| ScanProofs.AttributeStepEffect | packages/babel-plugin-jsx/src/transform-vue-jsx.ts:109-250 | after the bookkeeping, only a directive's dynamic `v-model` argument changes a flag, and only directives add names |
| ScanProofs.StepFlag | packages/babel-plugin-jsx/src/transform-vue-jsx.ts:80-269 | one attribute leaves a flag set iff it was set before or the attribute is described as setting it |
| ScanProofs.StepNames | packages/babel-plugin-jsx/src/transform-vue-jsx.ts:80-269 | one attribute adds exactly its described names, and the list stays duplicate-free |
| ScanProofs.ScanFlags | packages/babel-plugin-jsx/src/transform-vue-jsx.ts:80-269 | after the whole loop a flag is set iff it was set before or some attribute sets it |
| ScanProofs.ScanNames | packages/babel-plugin-jsx/src/transform-vue-jsx.ts:80-269 | after the whole loop the name list is exactly the names described for the attributes, with no duplicates |
| ScanProofs.DynamicPropNames | packages/babel-plugin-jsx/src/transform-vue-jsx.ts:51 | `buildProps`'s dynamic-prop names are exactly the names the attributes contribute, each once |
| ScanProofs.PatchFlagAnalysis | packages/babel-plugin-jsx/src/transform-vue-jsx.ts:271-294 | `buildProps`'s patch flag, bit by bit, in terms of which attributes the element has |
| ScanProofs.SpreadForcesFullProps | packages/babel-plugin-jsx/src/transform-vue-jsx.ts:252-268 | an element with a spread attribute gets exactly the FULL_PROPS flag |
| ScanProofs.DynamicKeysForceFullProps | packages/babel-plugin-jsx/src/transform-vue-jsx.ts:272-273 | keys made dynamic by any attribute give exactly FULL_PROPS |
| ScanProofs.NeedPatchStandsAlone | packages/babel-plugin-jsx/src/transform-vue-jsx.ts:288-294 | NEED_PATCH comes alone or with HYDRATE_EVENTS only |
| ScanProofs.SlotsStep | packages/babel-plugin-jsx/src/transform-vue-jsx.ts:136-139 | a `v-slots` attribute sets the slots to its value and adds no property, merge argument or directive, nor makes the keys dynamic |
| ScanProofs.OtherStepKeepsSlots | packages/babel-plugin-jsx/src/transform-vue-jsx.ts:80-269 | every attribute that is not `v-slots` leaves the slots unchanged |
| ScanProofs.ScanSlots | packages/babel-plugin-jsx/src/transform-vue-jsx.ts:80-269 | after the attribute loop the slots are the value of the last `v-slots` attribute, or unchanged when there is none |
| ScanProofs.BuildPropsSlots | packages/babel-plugin-jsx/src/transform-vue-jsx.ts:53 | `buildProps` returns as its slots the value of the last `v-slots` attribute, and none when there is no such attribute |
| ScanProofs.EmptyAttributes | packages/babel-plugin-jsx/src/transform-vue-jsx.ts:56-66 | without attributes: `null` props, flag 0, and no directives, names or slots |
| ScanProofs.NamesNeedAFlag | packages/babel-plugin-jsx/src/transform-vue-jsx.ts:271-294 | a non-empty dynamic-name list always comes with a non-zero flag (PROPS, or FULL_PROPS) |
| ScanProofs.ComponentFlags | packages/babel-plugin-jsx/src/transform-vue-jsx.ts:87-104 | components never get CLASS, STYLE or HYDRATE_EVENTS |
| ElementProofs.LowerChildOutcome | packages/babel-plugin-jsx/src/transform-vue-jsx.ts:392-425 | lowering one child fails iff it is unsupported or an element whose lowering fails; only element children ask for deoptimization |
| ElementProofs.ChildrenOutcome | packages/babel-plugin-jsx/src/transform-vue-jsx.ts:381-428 | `getChildren` fails iff some child cannot be lowered; otherwise it yields at most one expression per child, none of them empty, and asks for deoptimization iff some element child does |
| ElementProofs.SurvivorMembers | packages/babel-plugin-jsx/src/transform-vue-jsx.ts:426-428 | an expression passes the filter iff it is not empty and some child's lowered value is that expression |
| ElementProofs.ChildrenKept | packages/babel-plugin-jsx/src/transform-vue-jsx.ts:391-428 | on success `getChildren` yields exactly the children's non-null, non-empty lowered values in the children's order, so each of them is kept |
| ElementProofs.CreateCallShape | packages/babel-plugin-jsx/src/transform-vue-jsx.ts:616-629 | the vnode call is `createVNode` for components and `createElementVNode` otherwise, with tag, props and children (or `null`) first, then the flag and the names when present |
| ElementProofs.SlotsValueFlagShape | packages/babel-plugin-jsx/src/transform-vue-jsx.ts:491-502 | an object-literal `v-slots` value gets the classifier's verdict on its entries; any other value keeps a DYNAMIC flag and otherwise gives FORWARDED for the `slots` identifier and DYNAMIC for anything else; the flag only escalates |
| ElementProofs.ShapeEscalates | packages/babel-plugin-jsx/src/transform-vue-jsx.ts:468-610 | the children shape leaves the seed flag, FORWARDED or DYNAMIC, never ranking below the seed; a DYNAMIC seed stays DYNAMIC |
| ElementProofs.PlainElementChildren | packages/babel-plugin-jsx/src/transform-vue-jsx.ts:468-610 | several children (or children with `v-slots`), or one child that is not a function or object literal, become a plain array on an element, and the slot flag is unchanged |
| ElementProofs.ForwardedSlotsShape | packages/babel-plugin-jsx/src/transform-vue-jsx.ts:496-502 | `v-slots={slots}` on a component gives FORWARDED from a STABLE seed |
| ElementProofs.OpaqueSlotsShape | packages/babel-plugin-jsx/src/transform-vue-jsx.ts:496-502 | any other non-object `v-slots` expression on a component gives DYNAMIC |
| ElementProofs.PropsFacts | packages/babel-plugin-jsx/src/transform-vue-jsx.ts:46-374 | `buildProps` reports the element's own tag and component-ness, never sets DYNAMIC_SLOTS, and does not report names without a flag |
| ElementProofs.SlotPatchFlagBits | packages/babel-plugin-jsx/src/transform-vue-jsx.ts:612-614 | DYNAMIC_SLOTS is set iff the slots are DYNAMIC; the other bits are the props' own flag |
| ElementProofs.FinishDeopt | packages/babel-plugin-jsx/src/transform-vue-jsx.ts:447-463 | an element asks its ancestors to deoptimize iff a child did or it has a runtime-resolved directive |
| ElementProofs.FinishCall | packages/babel-plugin-jsx/src/transform-vue-jsx.ts:616-638 | the emitted call is wrapped in `withDirectives` iff there are directives, around the vnode call |
| ElementProofs.ElementCall | packages/babel-plugin-jsx/src/transform-vue-jsx.ts:616-638 | `transformJSXElement` emits the right builder with tag and props first, the flag only when optimizing and non-zero, names only when optimizing and present, and the `withDirectives` wrapper iff there are directives |
| ElementProofs.NamesFollowFlag | packages/babel-plugin-jsx/src/transform-vue-jsx.ts:616-629 | whenever names are emitted, the call has five arguments, with the non-zero flag in fourth place and the names in fifth |
| ElementProofs.ElementPatchFlag | packages/babel-plugin-jsx/src/transform-vue-jsx.ts:612-614 | the element's patch flag has DYNAMIC_SLOTS iff its slots are DYNAMIC, and is otherwise the props' flag |
| ElementProofs.ElementSlotFlag | packages/babel-plugin-jsx/src/transform-vue-jsx.ts:465-610 | a deoptimizing child makes the slot flag DYNAMIC; with no deoptimizing child, no `v-slots` value and no single object-literal child, it stays STABLE |
| ElementProofs.DeoptPropagates | packages/babel-plugin-jsx/src/transform-vue-jsx.ts:458-465 | a deoptimizing element child makes its parent DYNAMIC, sets DYNAMIC_SLOTS, and passes the request on to the grandparent |
| ElementProofs.RuntimeDirectiveDeopts | packages/babel-plugin-jsx/src/transform-vue-jsx.ts:449-463 | an element with a `_resolveDirective` directive asks its ancestors to deoptimize |
| ElementProofs.DescendantLowers | packages/babel-plugin-jsx/src/transform-vue-jsx.ts:434 | when an element lowers, so does every descendant reached through element children |
| ElementProofs.DeoptReachesAncestors | packages/babel-plugin-jsx/src/transform-vue-jsx.ts:447-465 | a runtime-resolved directive at any depth makes the slots of every element on the path up to the root DYNAMIC |
| ElementProofs.EmptyElement | packages/babel-plugin-jsx/src/transform-vue-jsx.ts:56-66 | an element without attributes or children becomes `create…VNode(tag, null, null)`, STABLE, with flag 0 |
| ElementProofs.ObjectSlotsChild | packages/babel-plugin-jsx/src/transform-vue-jsx.ts:586-594 | a component whose only child is an object literal uses it as its slots; the slot flag is the classifier's verdict on its entries, `_` is appended when optimizing, and DYNAMIC sets DYNAMIC_SLOTS |
| PropsProofs.NormalizedEntries | packages/babel-plugin-jsx/src/transform-vue-jsx.ts:333-361 | normalization keeps every property in place with its kind, key and computed flag, and rewrites only literal-keyed `class` and `style` values, through `normalizeClass`/`normalizeStyle` unless already literal |
| PropsProofs.ClassValuesNormalized | packages/babel-plugin-jsx/src/transform-vue-jsx.ts:340-347 | every literal-keyed `class` value afterwards is a string literal or a `normalizeClass` call |
| PropsProofs.PropsExpressionShape | packages/babel-plugin-jsx/src/transform-vue-jsx.ts:296-363 | `null` without props; a lone spread passed through; otherwise the normalized deduplicated object; with merge arguments, `mergeProps` for two or more (the properties object last), the bare argument for a component, and `normalizeProps(guardReactiveProps(…))` for an element |
| PropsProofs.ModelsFoldAppends | packages/babel-plugin-jsx/src/transform-vue-jsx.ts:216-229 | the `v-model` expansion only appends, one to three properties per bound value (exactly one with a custom directive) |
| PropsProofs.DefaultModelExpansion | packages/babel-plugin-jsx/src/transform-vue-jsx.ts:163-235 | `v-model={x}` expands to `modelValue`, `modelModifiers` when modified, and `"onUpdate:modelValue"`, recording both names |
| PropsProofs.DynamicArgumentExpansion | packages/babel-plugin-jsx/src/transform-vue-jsx.ts:163-229 | `v-model={[x, arg]}` with an expression argument gives computed keys, no names, and dynamic keys |
| PropsProofs.XlinkRenaming | packages/babel-plugin-jsx/src/transform-vue-jsx.ts:239-244 | `xlinkHref` becomes `xlink:href` (colon inserted, the letter lower-cased); other names are kept, and renaming is idempotent |
| PropsProofs.LowerAsciiLetters | packages/babel-plugin-jsx/src/transform-vue-jsx.ts:92 | lower-casing maps exactly the upper-case ASCII letters, and leaves none |
| PropsProofs.ClickListenerNames | packages/babel-plugin-jsx/src/transform-vue-jsx.ts:90-92 | `onClick`, `ONCLICK` and `onclick` are all the click listener that the hydration flag leaves out |

## Left out

- Babel's plumbing is not modelled. This covers `NodePath`, `replaceWith`, `scope.push`, the import helpers (`addDefault`, `createIdentifier`) and the `transformOn` state cache. An imported helper is a `HelperRef` name.
- The `setData`/`getData('slotFlag')` walk over ancestor paths is modelled as a deoptimization boolean passed up from each element child to its parent. Only direct element children pass it up, as in the source; an element used as an attribute value does not.
- `walksScope` is not part of this model; its definition is not among the modelled files. For an identifier child, the source calls it with `SlotFlags.DYNAMIC` on every reference to the identifier's binding (transform-vue-jsx.ts:405-410). Such a mark can feed the seed `path.getData('slotFlag') ?? STABLE` (transform-vue-jsx.ts:465). Where it does, the source starts from DYNAMIC, while the model starts from STABLE or from DYNAMIC only through a child's deoptimization.
- The utilities the core calls are fields of `Transform.Env`, and the proofs hold for every choice of them. The fields are `isConstant`, `isOn`, `isDirective`, `parseDirectives`, `dedupeProperties`, `transformText` (the text transform applied to string attribute values), `buildIIFE` and `slotUid` (`scope.generateUidIdentifier`). The spread-attribute transform is split into the two fields `spreadMergeArgs` and `spreadProperties`.
- Other collaborators' results are input data rather than `Env` fields. `getTag` gives `Element.tag`, and `checkIsComponent` gives `Element.isComponent`. `transformJSXText`, `transformJSXExpressionContainer` and `transformJSXSpreadChild` give the payloads of the `JsxText`, `JsxExpressionContainer` and `JsxSpreadChild` children; `transformJSXExpressionContainer` also gives an attribute's `ContainerValue`.
- The runtime helpers (`createVNode`, `mergeProps`, `normalizeClass`, `withDirectives`, `isSlot` and the like) are `HelperRef` names; their behaviour at run time is not modelled.
- `parseDirectives` is assumed to return aligned, non-empty lists of values, arguments and modifiers, so one binding carries one value with its argument and modifier set.
- Source locations are reduced to one boolean, `hasLoc`, on each call expression. The single-child branch tests it, and the calls the model generates carry `false`.
- An expression inside `{…}` is opaque, so a JSX element nested inside a JavaScript expression is not lowered by this model.
- Transform.LowerAscii: handles ASCII letters only, where JavaScript's `toLowerCase` applies full Unicode case mapping. JavaScript lower-cases, for example, U+212A KELVIN SIGN to `k`, so a non-ASCII spelling of `onclick` counts as a click handler in the source but as a hydrating listener in the model.
- `patchFlags.ts` is not part of this model; the flag values are those of Vue's runtime `PatchFlags` enum.
- The two skipped forwarded-slot tests (`slots` used inside a slot function) are not claimed, since the source does not analyze function bodies.
- The `isSlot` test that the generated code makes at run time is emitted as a call; what it returns is outside the model.
