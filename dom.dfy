/**
 * The browser records the content script is handed, abstracted into plain values:
 * DOM mutation records, layout-instability performance entries, and the options
 * each MutationObserver is attached with (src/content.ts).
 */
module Dom {
  import opened Wrappers

  /** `MutationRecord.type`; `characterData` is never requested by any observer. */
  datatype MutationType = Attributes | ChildList

  /** The string the browser reports as `mutation.type`. */
  function TypeString(t: MutationType): (r: string)
    ensures (r == "attributes") == (t == Attributes)
    ensures (r == "childList") == (t == ChildList)
  {
    match t
    case Attributes => "attributes"
    case ChildList => "childList"
  }

  /** The mutated node: its `nodeName`, `id` and `classList.toString()`. */
  datatype Target = Target(nodeName: string, id: string, classes: string)

  /**
   * One mutation record: its type, the changed attribute's name (`null` for a
   * child-list change), the length of `addedNodes`, and the target.
   */
  datatype MutationRecord = MutationRecord(
    kind: MutationType,
    attributeName: Option<string>,
    addedNodes: nat,
    target: Target)

  /** The browser's floating-point layout-shift score, carried without interpretation. */
  type ShiftValue(==)

  /** One element of a layout-shift entry's `sources`; `nodeName` may be absent. */
  datatype Attribution = Attribution(nodeName: Option<string>)

  /** A performance entry: its `entryType`, its `sources` (possibly absent) and its `value`. */
  datatype PerformanceEntry = PerformanceEntry(
    entryType: string,
    sources: Option<seq<Attribution>>,
    value: ShiftValue)

  /** The `MutationObserver.observe` options (`subtree` widens to descendants of the root). */
  datatype ObserveOptions = ObserveOptions(attributes: bool, childList: bool, subtree: bool)

  const ReflowOptions := ObserveOptions(true, true, true)
  const RepaintOptions := ObserveOptions(true, false, true)
  const LargeDomOptions := ObserveOptions(false, true, true)

  /** Whether an observer attached with `opts` is handed a record of this kind. */
  predicate Delivers(opts: ObserveOptions, m: MutationRecord)
    ensures opts == ReflowOptions ==> Delivers(opts, m)
    ensures opts == RepaintOptions ==> (Delivers(opts, m) <==> m.kind == Attributes)
    ensures opts == LargeDomOptions ==> (Delivers(opts, m) <==> m.kind == ChildList)
  {
    match m.kind
    case Attributes => opts.attributes
    case ChildList => opts.childList
  }

  /** The part of a record stream handed to an observer attached with `opts`, in stream order. */
  function Delivered(opts: ObserveOptions, records: seq<MutationRecord>): (batch: seq<MutationRecord>)
    ensures |batch| <= |records|
    ensures forall i :: 0 <= i < |batch| ==> Delivers(opts, batch[i])
    ensures forall m :: m in batch <==> m in records && Delivers(opts, m)
  {
    if records == [] then []
    else
      var rest := Delivered(opts, records[..|records| - 1]);
      var last := records[|records| - 1];
      assert records == records[..|records| - 1] + [last];
      if Delivers(opts, last) then rest + [last] else rest
  }

  /** A single record is handed over exactly when the options request its kind. */
  lemma DeliveredSingle(opts: ObserveOptions, m: MutationRecord)
    ensures Delivered(opts, [m]) == if Delivers(opts, m) then [m] else []
  {
    assert [m][..0] == [];
  }

  /** Filtering keeps stream order and multiplicity: a stream's two parts are filtered one after the other. */
  lemma {:induction false} DeliveredAppend(opts: ObserveOptions, a: seq<MutationRecord>, b: seq<MutationRecord>)
    ensures Delivered(opts, a + b) == Delivered(opts, a) + Delivered(opts, b)
  {
    if b == [] {
      assert a + b == a;
    } else {
      var b' := b[..|b| - 1];
      assert (a + b)[..|a + b| - 1] == a + b';
      assert (a + b)[|a + b| - 1] == b[|b| - 1];
      DeliveredAppend(opts, a, b');
    }
  }
}
