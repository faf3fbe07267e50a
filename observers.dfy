/**
 * The four observer callbacks of the content script (src/content.ts). Each
 * walks its batch in order and sends the messages its rule gives; the relay
 * stands for `chrome.runtime.sendMessage` and records what was sent.
 */
module Observers {
  import opened Wrappers
  import Dom
  import opened Events
  import opened Classifier

  /** The messages a callback sends for a batch: each record's message, if any, in batch order. */
  function Emitted<R>(batch: seq<R>, classify: R -> Option<Message>): (out: seq<Message>)
    ensures |out| <= |batch|
  {
    if batch == [] then []
    else
      var sent := Emitted(batch[..|batch| - 1], classify);
      match classify(batch[|batch| - 1])
      case None => sent
      case Some(msg) => sent + [msg]
  }

  /** What the reflow callback sends for a batch: only Reflows, at most one per record. */
  function ReflowBatch(mutations: seq<Dom.MutationRecord>): (out: seq<Message>)
    ensures |out| <= |mutations|
    ensures forall i :: 0 <= i < |out| ==> WellFormed(out[i]) && out[i].eventType == ReflowName
  {
    EmittedKind(mutations, ClassifyReflow, ReflowName);
    Emitted(mutations, ClassifyReflow)
  }

  /** What the repaint callback sends for a batch: only Repaints, at most one per record. */
  function RepaintBatch(mutations: seq<Dom.MutationRecord>, computedStyle: (Dom.Target, string) -> string): (out: seq<Message>)
    ensures |out| <= |mutations|
    ensures forall i :: 0 <= i < |out| ==> WellFormed(out[i]) && out[i].eventType == RepaintName
  {
    EmittedKind(mutations, m => ClassifyRepaint(m, computedStyle), RepaintName);
    Emitted(mutations, m => ClassifyRepaint(m, computedStyle))
  }

  /** What the large-DOM callback sends for a batch: only Large DOM Updates, at most one per record. */
  function LargeDomBatch(mutations: seq<Dom.MutationRecord>): (out: seq<Message>)
    ensures |out| <= |mutations|
    ensures forall i :: 0 <= i < |out| ==> WellFormed(out[i]) && out[i].eventType == LargeDomUpdateName
  {
    EmittedKind(mutations, ClassifyLargeDom, LargeDomUpdateName);
    Emitted(mutations, ClassifyLargeDom)
  }

  /** What the layout-shift callback sends for a batch: only Layout Shifts, at most one per entry. */
  function LayoutShiftBatch(entries: seq<Dom.PerformanceEntry>): (out: seq<Message>)
    ensures |out| <= |entries|
    ensures forall i :: 0 <= i < |out| ==> WellFormed(out[i]) && out[i].eventType == LayoutShiftName
  {
    EmittedKind(entries, ClassifyLayoutShift, LayoutShiftName);
    Emitted(entries, ClassifyLayoutShift)
  }

  // ---------------------------------------------------------------------------
  // Properties of a batch walk.

  /** Walking two batches one after the other sends what walking their concatenation sends. */
  lemma {:induction false} EmittedAppend<R>(a: seq<R>, b: seq<R>, classify: R -> Option<Message>)
    ensures Emitted(a + b, classify) == Emitted(a, classify) + Emitted(b, classify)
  {
    if b == [] {
      assert a + b == a;
    } else {
      var b' := b[..|b| - 1];
      assert (a + b)[..|a + b| - 1] == a + b';
      assert (a + b)[|a + b| - 1] == b[|b| - 1];
      EmittedAppend(a, b', classify);
    }
  }

  /** A message is sent for a batch exactly when some record of the batch classifies to it. */
  lemma {:induction false} EmittedMember<R>(batch: seq<R>, classify: R -> Option<Message>, msg: Message)
    ensures msg in Emitted(batch, classify) <==>
      exists i :: 0 <= i < |batch| && classify(batch[i]) == Some(msg)
  {
    if batch != [] {
      var init := batch[..|batch| - 1];
      EmittedMember(init, classify, msg);
      if msg in Emitted(init, classify) {
        var i :| 0 <= i < |init| && classify(init[i]) == Some(msg);
        assert batch[i] == init[i];
      }
      if exists i :: 0 <= i < |batch| && classify(batch[i]) == Some(msg) {
        var i :| 0 <= i < |batch| && classify(batch[i]) == Some(msg);
        if i < |init| {
          assert init[i] == batch[i];
        }
      }
    }
  }

  /** When every record gives a message, the batch sends exactly one per record, in batch order. */
  lemma {:induction false} EmittedTotal<R>(batch: seq<R>, classify: R -> Option<Message>)
    requires forall i :: 0 <= i < |batch| ==> classify(batch[i]).Some?
    ensures |Emitted(batch, classify)| == |batch|
    ensures forall i :: 0 <= i < |batch| ==> Some(Emitted(batch, classify)[i]) == classify(batch[i])
  {
    if batch != [] {
      var init := batch[..|batch| - 1];
      assert forall i :: 0 <= i < |init| ==> init[i] == batch[i];
      EmittedTotal(init, classify);
    }
  }

  /** The reflow callback sends one Reflow per record, in batch order, whatever the record's type. */
  lemma ReflowPerRecord(mutations: seq<Dom.MutationRecord>)
    ensures |ReflowBatch(mutations)| == |mutations|
    ensures forall i :: 0 <= i < |mutations| ==> ReflowBatch(mutations)[i] == ReflowMessage(mutations[i])
  {
    EmittedTotal(mutations, ClassifyReflow);
  }

  /** A Repaint is sent for a batch exactly for its attribute records naming an allow-listed property. */
  lemma RepaintBatchMember(mutations: seq<Dom.MutationRecord>, computedStyle: (Dom.Target, string) -> string, msg: Message)
    ensures msg in RepaintBatch(mutations, computedStyle) <==>
      exists i :: 0 <= i < |mutations| && ClassifyRepaint(mutations[i], computedStyle) == Some(msg)
    ensures msg in RepaintBatch(mutations, computedStyle) ==>
      msg.eventType == RepaintName && msg.body.Repaint? && msg.body.changedAttribute in RepaintProperties
  {
    EmittedMember(mutations, m => ClassifyRepaint(m, computedStyle), msg);
  }

  /** Every Large DOM Update sent for a batch reports a record with more than 20 added nodes. */
  lemma LargeDomBatchMember(mutations: seq<Dom.MutationRecord>, msg: Message)
    ensures msg in LargeDomBatch(mutations) <==>
      exists i :: 0 <= i < |mutations| && mutations[i].addedNodes > 20
        && msg == Make(LargeDomUpdate(mutations[i].target.nodeName, mutations[i].addedNodes))
  {
    EmittedMember(mutations, ClassifyLargeDom, msg);
  }

  /** A batch with no `layout-shift` entry sends nothing; every message sent carries an entry's value. */
  lemma LayoutShiftBatchMember(entries: seq<Dom.PerformanceEntry>, msg: Message)
    ensures msg in LayoutShiftBatch(entries) <==>
      exists i :: 0 <= i < |entries| && entries[i].entryType == "layout-shift"
        && msg == Make(LayoutShift(AffectedElement(entries[i].sources), entries[i].value))
    ensures (forall i :: 0 <= i < |entries| ==> entries[i].entryType != "layout-shift") ==>
      LayoutShiftBatch(entries) == []
  {
    EmittedMember(entries, ClassifyLayoutShift, msg);
    if forall i :: 0 <= i < |entries| ==> entries[i].entryType != "layout-shift" {
      if LayoutShiftBatch(entries) != [] {
        EmittedMember(entries, ClassifyLayoutShift, LayoutShiftBatch(entries)[0]);
      }
    }
  }

  /** Every message any callback sends is a `RENDER_EVENT` with one of the four event types. */
  lemma {:induction false} EmittedWellFormed<R>(batch: seq<R>, classify: R -> Option<Message>)
    requires forall r :: classify(r).Some? ==> WellFormed(classify(r).value)
    ensures forall i :: 0 <= i < |Emitted(batch, classify)| ==>
      Emitted(batch, classify)[i].msgType == "RENDER_EVENT"
      && Emitted(batch, classify)[i].eventType in EventTypeNames
  {
    if batch != [] {
      EmittedWellFormed(batch[..|batch| - 1], classify);
    }
  }

  /** When a rule only ever gives messages of one kind, so does a walk with it. */
  lemma {:induction false} EmittedKind<R>(batch: seq<R>, classify: R -> Option<Message>, name: string)
    requires forall r :: classify(r).Some? ==> WellFormed(classify(r).value) && classify(r).value.eventType == name
    ensures forall i :: 0 <= i < |Emitted(batch, classify)| ==>
      WellFormed(Emitted(batch, classify)[i]) && Emitted(batch, classify)[i].eventType == name
  {
    if batch != [] {
      EmittedKind(batch[..|batch| - 1], classify, name);
    }
  }

  // ---------------------------------------------------------------------------
  // The callbacks themselves.

  /** The fire-and-forget transport, reduced to the sequence of messages handed to it. */
  class Relay {
    var sent: seq<Message>

    constructor ()
      ensures sent == []
    {
      sent := [];
    }

    /** `chrome.runtime.sendMessage(msg)`: appends, never fails, never answers. */
    method Send(msg: Message)
      modifies this
      ensures sent == old(sent) + [msg]
    {
      sent := sent + [msg];
    }
  }

  /** `reflowObserver`'s callback: a Reflow for every record. */
  method ReflowObserver(relay: Relay, mutations: seq<Dom.MutationRecord>)
    modifies relay
    ensures relay.sent == old(relay.sent) + ReflowBatch(mutations)
  {
    for i := 0 to |mutations|
      invariant relay.sent == old(relay.sent) + ReflowBatch(mutations[..i])
    {
      var mutation := mutations[i];
      relay.Send(Make(Reflow(mutation.target, Details(mutation.target), Dom.TypeString(mutation.kind))));
      assert mutations[..i + 1][..i] == mutations[..i];
    }
    assert mutations[..|mutations|] == mutations;
  }

  /** `layoutShiftObserver`'s callback: a Layout Shift for every `layout-shift` entry. */
  method LayoutShiftObserver(relay: Relay, entries: seq<Dom.PerformanceEntry>)
    modifies relay
    ensures relay.sent == old(relay.sent) + LayoutShiftBatch(entries)
  {
    for i := 0 to |entries|
      invariant relay.sent == old(relay.sent) + LayoutShiftBatch(entries[..i])
    {
      var entry := entries[i];
      if entry.entryType == LayoutShiftEntryType {
        relay.Send(Make(LayoutShift(AffectedElement(entry.sources), entry.value)));
      }
      assert entries[..i + 1][..i] == entries[..i];
    }
    assert entries[..|entries|] == entries;
  }

  /**
   * `repaintObserver`'s callback, attached for attribute changes only: a Repaint
   * for every attribute record whose attribute is allow-listed.
   */
  method RepaintObserver(relay: Relay, mutations: seq<Dom.MutationRecord>, computedStyle: (Dom.Target, string) -> string)
    // Records the `observe` options (attribute changes only); the loop does not rely on it.
    requires forall i :: 0 <= i < |mutations| ==> Dom.Delivers(Dom.RepaintOptions, mutations[i])
    modifies relay
    ensures relay.sent == old(relay.sent) + RepaintBatch(mutations, computedStyle)
  {
    for i := 0 to |mutations|
      invariant relay.sent == old(relay.sent) + RepaintBatch(mutations[..i], computedStyle)
    {
      var mutation := mutations[i];
      if mutation.kind == Dom.Attributes {
        var target := mutation.target;
        var changedAttribute := mutation.attributeName;
        if IsRepaintProperty(changedAttribute) {
          relay.Send(Make(Repaint(target.nodeName, Details(target), changedAttribute.value,
                                  computedStyle(target, changedAttribute.value))));
        }
      }
      assert mutations[..i + 1][..i] == mutations[..i];
    }
    assert mutations[..|mutations|] == mutations;
  }

  /**
   * `largeDomObserver`'s callback, attached for child-list changes only: a Large
   * DOM Update for every record adding more than 20 nodes.
   */
  method LargeDomObserver(relay: Relay, mutations: seq<Dom.MutationRecord>)
    // Records the `observe` options (child-list changes only); the loop does not rely on it.
    requires forall i :: 0 <= i < |mutations| ==> Dom.Delivers(Dom.LargeDomOptions, mutations[i])
    modifies relay
    ensures relay.sent == old(relay.sent) + LargeDomBatch(mutations)
  {
    for i := 0 to |mutations|
      invariant relay.sent == old(relay.sent) + LargeDomBatch(mutations[..i])
    {
      var mutation := mutations[i];
      if mutation.addedNodes > LargeDomThreshold {
        relay.Send(Make(LargeDomUpdate(mutation.target.nodeName, mutation.addedNodes)));
      }
      assert mutations[..i + 1][..i] == mutations[..i];
    }
    assert mutations[..|mutations|] == mutations;
  }
}
