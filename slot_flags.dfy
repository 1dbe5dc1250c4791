/**
 * The slot-flag classifier: given the entries of a slots object literal and a
 * prior flag, decides whether the slots are STABLE, DYNAMIC or FORWARDED.
 */
module SlotFlags {

  /** The runtime's slot flags; `Value` is the number emitted into the code. */
  datatype SlotFlag = STABLE | DYNAMIC | FORWARDED {
    function Value(): (n: int)
      ensures 1 <= n <= 3
    {
      match this
      case STABLE => 1
      case DYNAMIC => 2
      case FORWARDED => 3
    }

    /** Position in the escalation order STABLE < FORWARDED < DYNAMIC (not the numeric order). */
    function Rank(): nat {
      match this
      case STABLE => 0
      case FORWARDED => 1
      case DYNAMIC => 2
    }
  }

  /** The higher of two flags in the escalation order. */
  function Escalate(a: SlotFlag, b: SlotFlag): (r: SlotFlag)
    ensures r == a || r == b
    ensures r.Rank() >= a.Rank() && r.Rank() >= b.Rank()
  {
    if a.Rank() >= b.Rank() then a else b
  }

  /** What the classifier sees of an object property's value. */
  datatype SlotValue =
    | Member(objIsSlots: bool)            // `x.y`; objIsSlots: x is the identifier `slots`
    | Cond(testIsMemberOfSlots: bool)     // `t ? a : b`; the flag: t is `slots.y`
    | OtherValue

  /** What the classifier sees of one entry of the object literal. */
  datatype SlotEntry =
    | Spread(argIsIdentSlots: bool)       // `...x`; the flag: x is the identifier `slots`
    | Prop(computed: bool, value: SlotValue)
    | Method(computed: bool)

  /** The effect one entry has on the scan. */
  datatype Effect = NoEffect | MarksForwarded | MarksDynamic

  function EffectOf(e: SlotEntry): Effect {
    match e
    case Spread(toSlots) => if toSlots then MarksForwarded else MarksDynamic
    case Method(computed) => if computed then MarksDynamic else NoEffect
    case Prop(computed, v) =>
      if computed then MarksDynamic
      else match v
        case Member(objIsSlots) => if objIsSlots then MarksForwarded else NoEffect
        case Cond(testIsSlots) => if testIsSlots then MarksForwarded else MarksDynamic
        case OtherValue => NoEffect
  }

  /**
   * Reference definition of the classifier, one entry at a time: a dynamic entry
   * settles the verdict, a forwarded one escalates the flag carried along.
   */
  function Classify(entries: seq<SlotEntry>, prior: SlotFlag): SlotFlag
    decreases |entries|
  {
    if |entries| == 0 then prior
    else match EffectOf(entries[0])
      case MarksDynamic => DYNAMIC
      case MarksForwarded => Classify(entries[1..], Escalate(prior, FORWARDED))
      case NoEffect => Classify(entries[1..], prior)
  }

  /** The combine after the scan: DYNAMIC dominates, then FORWARDED, else the prior flag. */
  function Combine(hasDynamicSlots: bool, hasForwardedSlots: bool, slotFlag: SlotFlag): (r: SlotFlag)
    ensures r == DYNAMIC <==> hasDynamicSlots || slotFlag == DYNAMIC
    ensures r == FORWARDED <==> !hasDynamicSlots && slotFlag != DYNAMIC && (hasForwardedSlots || slotFlag == FORWARDED)
    ensures r == STABLE <==> !hasDynamicSlots && !hasForwardedSlots && slotFlag == STABLE
  {
    if hasDynamicSlots || slotFlag == DYNAMIC then DYNAMIC
    else if hasForwardedSlots || slotFlag == FORWARDED then FORWARDED
    else slotFlag
  }

  /** The scan over the entries, with the source's `continue` and `break`. */
  method DetermineSlotFlags(entries: seq<SlotEntry>, slotFlag: SlotFlag) returns (r: SlotFlag)
    ensures r == Classify(entries, slotFlag)
  {
    var hasDynamicSlots := false;
    var hasForwardedSlots := false;
    var i := 0;
    while i < |entries|
      invariant 0 <= i <= |entries|
      invariant !hasDynamicSlots
      invariant Classify(entries, slotFlag) == Classify(entries[i..], Combine(false, hasForwardedSlots, slotFlag))
    {
      var property := entries[i];
      assert entries[i..][1..] == entries[i + 1..];
      i := i + 1;
      if property.Spread? && property.argIsIdentSlots {
        hasForwardedSlots := true;
        continue;
      }
      if property.Spread? || property.computed {
        hasDynamicSlots := true;
        break;
      }
      if !property.Prop? {
        continue;
      }
      if property.value.Member? && property.value.objIsSlots {
        hasForwardedSlots := true;
        continue;
      }
      if property.value.Cond? {
        if property.value.testIsMemberOfSlots {
          hasForwardedSlots := true;
          continue;
        }
        hasDynamicSlots := true;
        break;
      }
    }
    r := Combine(hasDynamicSlots, hasForwardedSlots, slotFlag);
  }

  // ---------------------------------------------------------------------------
  // Properties of the classifier

  /** The verdict is DYNAMIC, FORWARDED or the prior flag itself, and never drops below the prior flag. */
  lemma {:induction false} ClassifyShape(entries: seq<SlotEntry>, prior: SlotFlag)
    ensures var r := Classify(entries, prior);
      (r == DYNAMIC || r == FORWARDED || r == prior) && r.Rank() >= prior.Rank()
    decreases |entries|
  {
    if |entries| > 0 {
      match EffectOf(entries[0])
      case MarksDynamic =>
      case MarksForwarded => ClassifyShape(entries[1..], Escalate(prior, FORWARDED));
      case NoEffect => ClassifyShape(entries[1..], prior);
    }
  }

  /** A DYNAMIC prior flag stays DYNAMIC whatever the entries. */
  lemma DynamicPriorAbsorbs(entries: seq<SlotEntry>)
    ensures Classify(entries, DYNAMIC) == DYNAMIC
  {
    ClassifyShape(entries, DYNAMIC);
  }

  /** A FORWARDED prior flag gives FORWARDED or DYNAMIC, never STABLE. */
  lemma ForwardedPriorNeverStable(entries: seq<SlotEntry>)
    ensures Classify(entries, FORWARDED) in {FORWARDED, DYNAMIC}
  {
    ClassifyShape(entries, FORWARDED);
  }

  /** An entry the classifier treats as stable: a non-computed method, or a non-computed property whose value is neither `slots.x` nor a conditional. */
  predicate IsStableEntry(e: SlotEntry) {
    || (e.Method? && !e.computed)
    || (e.Prop? && !e.computed && (e.value.OtherValue? || (e.value.Member? && !e.value.objIsSlots)))
  }

  /** `{...x}` with x not `slots`, any computed key, and a conditional not testing `slots.y`. */
  predicate IsDynamicEntry(e: SlotEntry) {
    || (e.Spread? && !e.argIsIdentSlots)
    || (!e.Spread? && e.computed)
    || (e.Prop? && !e.computed && e.value.Cond? && !e.value.testIsMemberOfSlots)
  }

  /** `{...slots}`, `{name: slots.x}` and `{name: slots.x ? a : b}`. */
  predicate IsForwardedEntry(e: SlotEntry) {
    || (e.Spread? && e.argIsIdentSlots)
    || (e.Prop? && !e.computed && e.value.Member? && e.value.objIsSlots)
    || (e.Prop? && !e.computed && e.value.Cond? && e.value.testIsMemberOfSlots)
  }

  /** Every entry is exactly one of stable, forwarded or dynamic. */
  lemma EntryKinds(e: SlotEntry)
    ensures IsStableEntry(e) <==> EffectOf(e) == NoEffect
    ensures IsForwardedEntry(e) <==> EffectOf(e) == MarksForwarded
    ensures IsDynamicEntry(e) <==> EffectOf(e) == MarksDynamic
  {
  }

  /** Only stable entries (the empty list included): the prior flag comes back unchanged. */
  lemma {:induction false} StableEntriesKeepPrior(entries: seq<SlotEntry>, prior: SlotFlag)
    requires forall i :: 0 <= i < |entries| ==> IsStableEntry(entries[i])
    ensures Classify(entries, prior) == prior
    decreases |entries|
  {
    if |entries| > 0 {
      EntryKinds(entries[0]);
      StableEntriesKeepPrior(entries[1..], prior);
    }
  }

  /** Some entry is dynamic: what `hasDynamicSlots` records. */
  predicate AnyDynamic(entries: seq<SlotEntry>) {
    exists i :: 0 <= i < |entries| && EffectOf(entries[i]) == MarksDynamic
  }

  /** Some forwarded entry comes before the first dynamic one: what `hasForwardedSlots` records when the scan stops. */
  predicate ForwardedFirst(entries: seq<SlotEntry>) {
    exists i :: 0 <= i < |entries| && EffectOf(entries[i]) == MarksForwarded &&
                forall j :: 0 <= j < i ==> EffectOf(entries[j]) != MarksDynamic
  }

  lemma AnyDynamicCons(entries: seq<SlotEntry>)
    requires |entries| > 0
    ensures AnyDynamic(entries) <==> EffectOf(entries[0]) == MarksDynamic || AnyDynamic(entries[1..])
  {
    var rest := entries[1..];
    if AnyDynamic(rest) {
      var i :| 0 <= i < |rest| && EffectOf(rest[i]) == MarksDynamic;
      assert EffectOf(entries[i + 1]) == MarksDynamic;
    }
    if AnyDynamic(entries) && EffectOf(entries[0]) != MarksDynamic {
      var i :| 0 <= i < |entries| && EffectOf(entries[i]) == MarksDynamic;
      assert EffectOf(rest[i - 1]) == MarksDynamic;
    }
  }

  lemma ForwardedFirstCons(entries: seq<SlotEntry>)
    requires |entries| > 0 && EffectOf(entries[0]) != MarksDynamic
    ensures ForwardedFirst(entries) <==> EffectOf(entries[0]) == MarksForwarded || ForwardedFirst(entries[1..])
  {
    var rest := entries[1..];
    if ForwardedFirst(rest) {
      var i :| 0 <= i < |rest| && EffectOf(rest[i]) == MarksForwarded &&
                forall j :: 0 <= j < i ==> EffectOf(rest[j]) != MarksDynamic;
      forall j | 0 <= j < i + 1 ensures EffectOf(entries[j]) != MarksDynamic {
        if j > 0 { assert entries[j] == rest[j - 1]; }
      }
      assert EffectOf(entries[i + 1]) == MarksForwarded;
    }
    if EffectOf(entries[0]) == MarksForwarded {
      assert EffectOf(entries[0]) == MarksForwarded;
    }
    if ForwardedFirst(entries) && EffectOf(entries[0]) != MarksForwarded {
      var i :| 0 <= i < |entries| && EffectOf(entries[i]) == MarksForwarded &&
                forall j :: 0 <= j < i ==> EffectOf(entries[j]) != MarksDynamic;
      forall j | 0 <= j < i - 1 ensures EffectOf(rest[j]) != MarksDynamic {
        assert rest[j] == entries[j + 1];
      }
      assert EffectOf(rest[i - 1]) == MarksForwarded;
    }
  }

  /** Classifying a concatenation: the verdict of the first part is the prior flag of the second, unless it is settled. */
  lemma {:induction false} ClassifyAppend(a: seq<SlotEntry>, b: seq<SlotEntry>, prior: SlotFlag)
    ensures Classify(a + b, prior) ==
      if AnyDynamic(a) then DYNAMIC
      else Classify(b, Classify(a, prior))
    decreases |a|
  {
    if |a| == 0 {
      assert a + b == b;
    } else {
      assert (a + b)[1..] == a[1..] + b;
      assert (a + b)[0] == a[0];
      AnyDynamicCons(a);
      match EffectOf(a[0])
      case MarksDynamic =>
      case MarksForwarded => ClassifyAppend(a[1..], b, Escalate(prior, FORWARDED));
      case NoEffect => ClassifyAppend(a[1..], b, prior);
    }
  }

  /** A dynamic entry anywhere makes the verdict DYNAMIC, whatever comes before or after it. */
  lemma DynamicEntryDominates(before: seq<SlotEntry>, d: SlotEntry, after: seq<SlotEntry>, prior: SlotFlag)
    requires IsDynamicEntry(d)
    ensures Classify(before + [d] + after, prior) == DYNAMIC
  {
    EntryKinds(d);
    ClassifyAppend(before, [d] + after, prior);
    assert before + [d] + after == before + ([d] + after);
  }

  /** A forwarded entry anywhere makes the verdict at least FORWARDED. */
  lemma ForwardedEntryNeverStable(before: seq<SlotEntry>, f: SlotEntry, after: seq<SlotEntry>, prior: SlotFlag)
    requires IsForwardedEntry(f)
    ensures Classify(before + [f] + after, prior) in {FORWARDED, DYNAMIC}
  {
    EntryKinds(f);
    assert before + [f] + after == before + ([f] + after);
    ClassifyAppend(before, [f] + after, prior);
    var mid := Classify(before, prior);
    assert ([f] + after)[1..] == after;
    ClassifyShape(after, Escalate(mid, FORWARDED));
  }

  /** A larger prior flag never gives a smaller verdict. */
  lemma {:induction false} ClassifyMonotonePrior(entries: seq<SlotEntry>, p: SlotFlag, q: SlotFlag)
    requires p.Rank() <= q.Rank()
    ensures Classify(entries, p).Rank() <= Classify(entries, q).Rank()
    decreases |entries|
  {
    if |entries| > 0 {
      match EffectOf(entries[0])
      case MarksDynamic =>
      case MarksForwarded => ClassifyMonotonePrior(entries[1..], Escalate(p, FORWARDED), Escalate(q, FORWARDED));
      case NoEffect => ClassifyMonotonePrior(entries[1..], p, q);
    }
  }

  /** Appending entries never lowers the verdict. */
  lemma AppendNeverLowers(a: seq<SlotEntry>, b: seq<SlotEntry>, prior: SlotFlag)
    ensures Classify(a + b, prior).Rank() >= Classify(a, prior).Rank()
  {
    ClassifyAppend(a, b, prior);
    ClassifyShape(b, Classify(a, prior));
    if AnyDynamic(a) {
      ClassifyShape(a, prior);
    }
  }

  /** The loop's two booleans, stated without the loop: a dynamic entry exists; a forwarded entry precedes the first dynamic one. */
  lemma {:induction false} ClassifyIsCombine(entries: seq<SlotEntry>, prior: SlotFlag)
    ensures Classify(entries, prior) == Combine(AnyDynamic(entries), ForwardedFirst(entries), prior)
    decreases |entries|
  {
    if |entries| > 0 {
      var rest := entries[1..];
      AnyDynamicCons(entries);
      match EffectOf(entries[0])
      case MarksDynamic =>
      case MarksForwarded =>
        ForwardedFirstCons(entries);
        ClassifyIsCombine(rest, Escalate(prior, FORWARDED));
      case NoEffect =>
        ForwardedFirstCons(entries);
        ClassifyIsCombine(rest, prior);
    }
  }

  /** The classifier's verdicts on the source's own examples of slot objects. */
  lemma ExampleVerdicts()
    // {{ default: () => {} }}
    ensures Classify([Prop(false, OtherValue)], STABLE) == STABLE
    // {{ [name]: () => {} }}
    ensures Classify([Prop(true, OtherValue)], STABLE) == DYNAMIC
    // {{ default: foo ? () => {} : undefined }}
    ensures Classify([Prop(false, Cond(false))], STABLE) == DYNAMIC
    // {{ ...slots, [name]: () => {} }}
    ensures Classify([Spread(true), Prop(true, OtherValue)], STABLE) == DYNAMIC
    // {{ ...slots, default: foo ? () => {} : undefined }}
    ensures Classify([Spread(true), Prop(false, Cond(false))], STABLE) == DYNAMIC
    // {{ foo: slots.foo }}
    ensures Classify([Prop(false, Member(true))], STABLE) == FORWARDED
    // {{ ...slots }}
    ensures Classify([Spread(true)], STABLE) == FORWARDED
    // {{ ...slots, foo: () => {} }}
    ensures Classify([Spread(true), Prop(false, OtherValue)], STABLE) == FORWARDED
    // {{ default: slots.default ? slots.default() : undefined }}
    ensures Classify([Prop(false, Cond(true))], STABLE) == FORWARDED
    // {{ ...slots, default: slots.default ? slots.default() : undefined }}
    ensures Classify([Spread(true), Prop(false, Cond(true))], STABLE) == FORWARDED
  {
  }
}
