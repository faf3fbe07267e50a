/**
 * The content script and the panels put together: what the observers send for
 * one DOM change given the `observe` options they are attached with, and what a
 * panel's log shows for everything the relay carried.
 */
module Pipeline {
  import opened Wrappers
  import Dom
  import opened Events
  import opened Classifier
  import opened Observers
  import opened Sink

  /** What each of the three DOM observers sends for one record, given what it is handed. */
  datatype PerObserver = PerObserver(reflow: seq<Message>, repaint: seq<Message>, largeDom: seq<Message>)

  function ObserversFor(m: Dom.MutationRecord, computedStyle: (Dom.Target, string) -> string): PerObserver
  {
    PerObserver(
      ReflowBatch(Dom.Delivered(Dom.ReflowOptions, [m])),
      RepaintBatch(Dom.Delivered(Dom.RepaintOptions, [m]), computedStyle),
      LargeDomBatch(Dom.Delivered(Dom.LargeDomOptions, [m])))
  }

  /**
   * An attribute change gives exactly one Reflow, a Repaint exactly when the
   * attribute is allow-listed, and never a Large DOM Update (that observer is not
   * attached for attribute changes).
   */
  lemma AttributeChangeEvents(m: Dom.MutationRecord, computedStyle: (Dom.Target, string) -> string)
    requires m.kind == Dom.Attributes
    ensures ObserversFor(m, computedStyle).reflow == [ReflowMessage(m)]
    ensures ObserversFor(m, computedStyle).reflow[0].body.changeType == "attributes"
    ensures IsRepaintProperty(m.attributeName) ==>
      |ObserversFor(m, computedStyle).repaint| == 1
      && ObserversFor(m, computedStyle).repaint[0].body.Repaint?
      && ObserversFor(m, computedStyle).repaint[0].body.changedAttribute == m.attributeName.value
      && ObserversFor(m, computedStyle).repaint[0].body.computedValue
         == computedStyle(m.target, m.attributeName.value)
    ensures !IsRepaintProperty(m.attributeName) ==> ObserversFor(m, computedStyle).repaint == []
    ensures ObserversFor(m, computedStyle).largeDom == []
  {
    assert Dom.Delivered(Dom.ReflowOptions, [m]) == [m];
    assert Dom.Delivered(Dom.RepaintOptions, [m]) == [m];
    assert Dom.Delivered(Dom.LargeDomOptions, [m]) == [];
    assert [m][..0] == [];
  }

  /**
   * A child-list change gives exactly one Reflow, never a Repaint, and a Large
   * DOM Update carrying the count exactly when more than 20 nodes were added.
   */
  lemma ChildListChangeEvents(m: Dom.MutationRecord, computedStyle: (Dom.Target, string) -> string)
    requires m.kind == Dom.ChildList
    ensures ObserversFor(m, computedStyle).reflow == [ReflowMessage(m)]
    ensures ObserversFor(m, computedStyle).reflow[0].body.changeType == "childList"
    ensures ObserversFor(m, computedStyle).repaint == []
    ensures m.addedNodes > 20 ==>
      ObserversFor(m, computedStyle).largeDom == [Make(LargeDomUpdate(m.target.nodeName, m.addedNodes))]
    ensures m.addedNodes <= 20 ==> ObserversFor(m, computedStyle).largeDom == []
  {
    assert Dom.Delivered(Dom.ReflowOptions, [m]) == [m];
    assert Dom.Delivered(Dom.RepaintOptions, [m]) == [];
    assert Dom.Delivered(Dom.LargeDomOptions, [m]) == [m];
    assert [m][..0] == [];
  }

  /**
   * Handing an observer the filtered stream sends the same messages, in the same
   * order and as many times, as walking the whole stream with a rule that gives
   * nothing for records of the kinds it is not attached for.
   */
  lemma {:induction false} EmittedDelivered(opts: Dom.ObserveOptions, records: seq<Dom.MutationRecord>,
                                            classify: Dom.MutationRecord -> Option<Message>,
                                            filtered: Dom.MutationRecord -> Option<Message>)
    requires forall m :: filtered(m) == if Dom.Delivers(opts, m) then classify(m) else None
    ensures Emitted(Dom.Delivered(opts, records), classify) == Emitted(records, filtered)
  {
    if records != [] {
      var init, last := records[..|records| - 1], records[|records| - 1];
      EmittedDelivered(opts, init, classify, filtered);
      Dom.DeliveredSingle(opts, last);
      assert Dom.Delivered(opts, records) == Dom.Delivered(opts, init) + Dom.Delivered(opts, [last]);
      EmittedAppend(Dom.Delivered(opts, init), Dom.Delivered(opts, [last]), classify);
      assert [last][..0] == [];
    }
  }

  /** The large-DOM rule restricted to child-list records, the only ones that observer is handed. */
  function ClassifyLargeDomChildList(m: Dom.MutationRecord): Option<Message>
  {
    if m.kind == Dom.ChildList then ClassifyLargeDom(m) else None
  }

  /**
   * Over a whole stream of records, the large-DOM observer sends one update per
   * child-list record adding more than 20 nodes, in stream order: two equal
   * qualifying records give two updates.
   */
  lemma LargeDomOnStream(records: seq<Dom.MutationRecord>)
    ensures LargeDomBatch(Dom.Delivered(Dom.LargeDomOptions, records))
         == Emitted(records, ClassifyLargeDomChildList)
  {
    EmittedDelivered(Dom.LargeDomOptions, records, ClassifyLargeDom, ClassifyLargeDomChildList);
  }

  /** Which messages the large-DOM observer sends over a stream: an update for each qualifying child-list record. */
  lemma LargeDomOnStreamMember(records: seq<Dom.MutationRecord>, msg: Message)
    ensures msg in LargeDomBatch(Dom.Delivered(Dom.LargeDomOptions, records)) <==>
      exists i :: 0 <= i < |records| && records[i].kind == Dom.ChildList && records[i].addedNodes > 20
        && msg == Make(LargeDomUpdate(records[i].target.nodeName, records[i].addedNodes))
  {
    LargeDomOnStream(records);
    EmittedMember(records, ClassifyLargeDomChildList, msg);
  }

  /**
   * The repaint observer's filter loses nothing: over a whole stream it sends
   * exactly what its rule gives for every record, in stream order.
   */
  lemma RepaintOnStream(records: seq<Dom.MutationRecord>, computedStyle: (Dom.Target, string) -> string)
    ensures RepaintBatch(Dom.Delivered(Dom.RepaintOptions, records), computedStyle)
         == RepaintBatch(records, computedStyle)
  {
    var f := m => ClassifyRepaint(m, computedStyle);
    EmittedDelivered(Dom.RepaintOptions, records, f, f);
  }

  /** The reflow observer is handed every record, so it sends one Reflow per record of the stream. */
  lemma ReflowOnStream(records: seq<Dom.MutationRecord>)
    ensures ReflowBatch(Dom.Delivered(Dom.ReflowOptions, records)) == ReflowBatch(records)
    ensures |ReflowBatch(records)| == |records|
  {
    DeliveredAll(Dom.ReflowOptions, records);
    ReflowPerRecord(records);
  }

  lemma {:induction false} DeliveredAll(opts: Dom.ObserveOptions, records: seq<Dom.MutationRecord>)
    requires opts.attributes && opts.childList
    ensures Dom.Delivered(opts, records) == records
  {
    if records != [] {
      DeliveredAll(opts, records[..|records| - 1]);
      assert records == records[..|records| - 1] + [records[|records| - 1]];
    }
  }

  // ---------------------------------------------------------------------------
  // From the relay to the panels.

  /** Everything in an outbox is a render event whose `eventType` names its variant. */
  predicate AllWellFormed(outbox: seq<Message>)
  {
    forall i :: 0 <= i < |outbox| ==> WellFormed(outbox[i])
  }

  /**
   * The components panel, fed everything the relay carried, shows each
   * message's `eventType`, in order: one of the four event names per message.
   */
  lemma EventTypePanelShowsKinds(outbox: seq<Message>)
    requires AllWellFormed(outbox)
    ensures |Logged(SerializeAll(outbox), EventTypeField)| == |outbox|
    ensures forall i :: 0 <= i < |outbox| ==>
      Logged(SerializeAll(outbox), EventTypeField)[i] == Some(KindName(outbox[i].body))
    ensures forall i :: 0 <= i < |outbox| ==>
      Logged(SerializeAll(outbox), EventTypeField)[i].value in EventTypeNames
  {
    LoggedAllRenderEvents(SerializeAll(outbox), EventTypeField);
  }

  /**
   * The panel the build ships, fed everything the relay carried, logs one
   * `undefined` entry per message: no content-script message has a `data` field.
   */
  lemma DataPanelShowsNoText(outbox: seq<Message>)
    requires AllWellFormed(outbox)
    ensures |Logged(SerializeAll(outbox), DataField)| == |outbox|
    ensures forall i :: 0 <= i < |outbox| ==> Logged(SerializeAll(outbox), DataField)[i] == None
  {
    LoggedAllRenderEvents(SerializeAll(outbox), DataField);
  }
}
