# Render Flow: render-event classification and the panel event log

A Dafny model of the core of the Render Flow browser extension. A content script
attaches three DOM mutation observers and one layout-shift performance observer to
the page. It turns each browser record into at most one `RENDER_EVENT` message:
a Reflow, a Layout Shift, a Repaint or a Large DOM Update. A developer-tools panel
listens for these messages and appends one entry per render event to an
append-only log.

Modules, leaf first:

- `Wrappers` (wrappers.dfy): `Option`, used for JavaScript fields that may be absent (`undefined`).
- `Dom` (dom.dfy): the browser records as plain values. These are mutation records (type, attribute name, added-node count, target) and performance entries (entry type, optional sources, opaque value). It also holds the `observe` options of each mutation observer, as a filter on which records that observer is handed.
- `Events` (events.dfy): the message taxonomy as a tagged variant under a `type`/`eventType` envelope. It also gives the fields a panel listener reads from a message.
- `Classifier` (classifier.dfy): the per-record rules. These are the `"N/A"`/`"Unknown"` sentinels, the 40-entry repaint allow-list, the more-than-20 threshold and the `layout-shift` filter.
- `Observers` (observers.dfy): the four callbacks as methods. Each loops over its batch and hands messages to a `Relay`, which stands for `chrome.runtime.sendMessage` and records what it was given. `Emitted` is the pure description of a batch walk; each method is proved equal to it.
- `Sink` (sink.dfy): what both listeners share. They drop non-render-events and append one selected field per render event.
- `ComponentsPanel` (components_panel.dfy) and `DataPanel` (panel.dfy): the two listener classes. Each holds `logs` and has an `OnMessage` method, plus a `Replay` client that starts from an empty log.
- `Pipeline` (pipeline.dfy): the pieces put together. It says what one DOM change gives under each observer's options, and what each panel shows for the relay's outbox.

The computed-style lookup is a function parameter `computedStyle(target, property)`, about which nothing is assumed.

## Model

| member | source | states |
|---|---|---|
| Dom.TypeString | src/content.ts:24 | the `changeType` string identifies the record's kind: "attributes" exactly for attribute changes, "childList" exactly for child-list changes |
| Dom.Delivers | src/content.ts:130-133 | the reflow options accept every record, the repaint options exactly attribute changes, and the large-DOM options exactly child-list changes (lines 30-34, 130-133 and 175-178) |
| Dom.Delivered | src/content.ts:130-133 | an observer is handed exactly the stream's records of the kinds its `observe` options request, and never more records than the stream has |
| Dom.DeliveredSingle | src/content.ts:130-133 | a single record is handed over iff its kind is requested |
| Dom.DeliveredAppend | src/content.ts:175-178 | the filter keeps stream order and multiplicity: the two parts of a stream are filtered one after the other |
| Events.KindName | src/content.ts:17-18 | every variant's `eventType` is one of "Reflow", "Layout Shift", "Repaint", "Large DOM Update" |
| Events.Make | src/content.ts:16-18 | every message built has `type` "RENDER_EVENT" and an `eventType` naming its variant |
| Events.Serialize | src/content.ts:16-25 | a well-formed message reaches a listener with `type` "RENDER_EVENT" and an `eventType` naming its variant, one of the four names; it has no `data` field |
| Classifier.OrDefault | src/content.ts:21 | the JavaScript or-default on strings: a non-empty string is kept, the empty string becomes the fallback |
| Classifier.Details | src/content.ts:20-23 | `id` and `classes` are the target's when non-empty, else "N/A": never empty |
| Classifier.IsRepaintProperty | src/content.ts:64-114 | the allow-list test holds only for a present name that is exactly one of the 40 listed properties: "background-color" passes, "Color" fails (case-sensitive), an absent name fails, and the HTML attribute names "style" and "class" fail |
| Classifier.ReflowMessage | src/content.ts:16-25 | a Reflow names the target and its details, and its `changeType` is the record's type string, "attributes" or "childList" |
| Classifier.ClassifyReflow | src/content.ts:15-25 | the reflow rule never filters: every record gives its Reflow message |
| Classifier.ClassifyRepaint | src/content.ts:109-125 | a Repaint is produced iff the record is an attribute change whose name is exactly an allow-list entry; it carries that name, the target's nodeName and details, and the computed value looked up for that property |
| Classifier.ClassifyLargeDom | src/content.ts:165-171 | a Large DOM Update is produced iff more than 20 nodes were added (20 gives none, 21 gives one); it carries the count and the target's nodeName |
| Classifier.AffectedElement | src/content.ts:48 | the first source's nodeName when present and non-empty; "Unknown" when sources are absent or empty or the first has no name; never empty |
| Classifier.ClassifyLayoutShift | src/content.ts:44-50 | only `layout-shift` entries give a message, and its impact is the entry's value unchanged |
| Observers.Emitted | src/content.ts:15 | a batch walk sends at most one message per record |
| Observers.EmittedAppend | src/content.ts:15 | walking a batch in two parts sends what walking it whole sends, in the same order |
| Observers.EmittedMember | src/content.ts:15 | a message is sent for a batch iff some record of the batch classifies to it |
| Observers.EmittedTotal | src/content.ts:15-26 | when every record gives a message, exactly one per record is sent, in batch order |
| Observers.ReflowBatch | src/content.ts:14-27 | the reflow callback sends only well-formed Reflows, at most one per record |
| Observers.RepaintBatch | src/content.ts:107-129 | the repaint callback sends only well-formed Repaints, at most one per record |
| Observers.LargeDomBatch | src/content.ts:163-174 | the large-DOM callback sends only well-formed Large DOM Updates, at most one per record |
| Observers.LayoutShiftBatch | src/content.ts:42-53 | the layout-shift callback sends only well-formed Layout Shifts, at most one per entry |
| Observers.EmittedKind | src/content.ts:15-18 | a walk with a rule that only gives one kind of message only sends that kind |
| Observers.EmittedWellFormed | src/content.ts:17-18 | every message a callback sends has `type` "RENDER_EVENT" and one of the four event types |
| Observers.ReflowPerRecord | src/content.ts:14-27 | the reflow callback sends one Reflow per record, in batch order, whatever the record's type |
| Observers.RepaintBatchMember | src/content.ts:107-129 | a Repaint is sent for a batch iff some record classifies to it; its changed attribute is always on the allow-list |
| Observers.LargeDomBatchMember | src/content.ts:163-174 | a Large DOM Update is sent for a batch iff some record added more than 20 nodes; it reports that record's count and nodeName |
| Observers.LayoutShiftBatchMember | src/content.ts:42-53 | a batch with no `layout-shift` entry sends nothing; what is sent carries a `layout-shift` entry's value and affected element |
| Observers.Relay.Send | src/content.ts:16 | sending appends the message to what the transport has carried and never fails |
| Observers.ReflowObserver | src/content.ts:14-27 | the callback's loop sends exactly the batch's Reflow messages, appended in order |
| Observers.LayoutShiftObserver | src/content.ts:42-53 | the callback's loop sends exactly the batch's Layout Shift messages, appended in order |
| Observers.RepaintObserver | src/content.ts:107-129 | the callback's loop sends exactly the batch's Repaint messages, appended in order |
| Observers.LargeDomObserver | src/content.ts:163-174 | the callback's loop sends exactly the batch's Large DOM Update messages, appended in order |
| Sink.IsRenderEvent | src/components/Panel.tsx:38 | strict equality: only a message whose `type` is exactly "RENDER_EVENT" passes; a missing `type` or "render_event" does not (the same test is at src/panel.tsx:26) |
| Sink.Logged | src/components/Panel.tsx:37-42 | the log after a message sequence has at most one entry per message, and a render event arriving last puts its selected field in the last entry |
| Sink.RenderEventCount | src/components/Panel.tsx:38 | the number of render events is at most the number of messages |
| Sink.LoggedLength | src/components/Panel.tsx:37-42 | starting from the empty log, its length is the number of render events received |
| Sink.LoggedAppend | src/components/Panel.tsx:39 | the log is append-only: the log before later messages is a prefix of the log after them |
| Sink.LoggedIgnoresOthers | src/components/Panel.tsx:38 | messages whose `type` is not "RENDER_EVENT" add nothing to the log |
| Sink.LoggedAllRenderEvents | src/components/Panel.tsx:39 | for render events only, the log holds the selected field of each message, position by position |
| ComponentsPanel.Panel.constructor | src/components/Panel.tsx:30 | the log starts empty |
| ComponentsPanel.Panel.OnMessage | src/components/Panel.tsx:37-42 | a non-render-event leaves `logs` unchanged; a render event appends exactly its `eventType` at the end; the old log is a prefix of the new one |
| ComponentsPanel.Replay | src/components/Panel.tsx:30-42 | from the empty log, after any messages the log is the `eventType`s of the render events in arrival order, and its length is their count |
| DataPanel.Panel.constructor | src/panel.tsx:22 | the log starts empty |
| DataPanel.Panel.OnMessage | src/panel.tsx:25-29 | a non-render-event leaves `logs` unchanged; a render event appends exactly its `data` at the end; the old log is a prefix of the new one |
| DataPanel.Replay | src/panel.tsx:22-29 | from the empty log, after any messages the log is the `data` fields of the render events in arrival order, and its length is their count |
| Pipeline.AttributeChangeEvents | src/content.ts:107-133 | an attribute change gives one Reflow with changeType "attributes", a Repaint iff its attribute is allow-listed, and no Large DOM Update |
| Pipeline.ChildListChangeEvents | src/content.ts:163-178 | a child-list change gives one Reflow with changeType "childList", no Repaint, and a Large DOM Update with its count iff it added more than 20 nodes |
| Pipeline.EmittedDelivered | src/content.ts:130-133 | walking the filtered stream sends the same messages, in the same order and number, as walking the whole stream with a rule that gives nothing for records of unrequested kinds |
| Pipeline.LargeDomOnStream | src/content.ts:163-178 | over a record stream, the large-DOM observer sends one update per child-list record adding more than 20 nodes, in stream order, so two equal qualifying records give two updates |
| Pipeline.LargeDomOnStreamMember | src/content.ts:163-178 | an update is sent over a stream iff some child-list record added more than 20 nodes; it carries that record's nodeName and count |
| Pipeline.RepaintOnStream | src/content.ts:107-133 | the repaint observer's attribute-only filter loses nothing: it sends what its rule gives for the whole stream, in order |
| Pipeline.ReflowOnStream | src/content.ts:14-34 | the reflow observer is handed every record and sends one Reflow per record |
| Pipeline.DeliveredAll | src/content.ts:30-34 | options requesting both attribute and child-list changes hand over the whole stream |
| Pipeline.EventTypePanelShowsKinds | src/components/Panel.tsx:37-42 | fed the relay's outbox, the components panel logs each message's event name, in order |
| Pipeline.DataPanelShowsNoText | src/panel.tsx:25-29 | fed the relay's outbox, the shipped panel logs one `undefined` entry per message |

Some things the code does may surprise a reader. The model follows the code:

- Reflow sends the raw target node (src/content.ts:19), not its tag. The model carries the target record and claims nothing about how it is serialised.
- `changeType` is only "attributes" or "childList". No observer asks for `characterData`, and `subtree` only widens the observed area.
- `impact` is passed through unchecked (src/content.ts:49). The model claims neither that it is non-negative nor that it defaults to 0.
- `computedValue` is whatever the style lookup returns. It has no sentinel for a detached element.
- The allow-list holds CSS property names, but it is compared with the name of the changed HTML attribute. A change made through the `style` or `class` attribute is therefore not a Repaint (`Classifier.IsRepaintProperty`).
- Within one callback, messages follow batch order. The three mutation observers are independent, so the model states no order between Reflow, Repaint and Large DOM Update for the same record.

## Left out

- Transport: `chrome.runtime.sendMessage` and listener registration are asynchronous and may drop messages. The `Relay` only records what it was handed, and the panels are fed by direct calls.
- Computed-style lookup (`getComputedStyle(...).getPropertyValue`, src/content.ts:112,124): a foreign call, kept as an uninterpreted function parameter.
- Layout-shift `value`: a browser float, kept as the opaque type `Dom.ShiftValue`.
- Observer attachment with `buffered: true` (src/content.ts:54): replay of earlier entries is browser behaviour. The callback is modelled on whatever batch is handed to it.
- The scroll and animation-overload detectors (src/content.ts:141-155, 185-202): commented out, so not part of the program.
- `console.log` calls, the JSX rendering, emotion styling and React hook lifecycle of both panels are UI. React's functional updater `prev => [...prev, x]` is modelled as a sequential append.
- src/background.ts, src/devtools.ts and vite.config.ts are lifecycle logging, panel registration and build configuration, and are not part of this model.

## Findings

| source | as written | input that shows it | evidently intended | confidence | as-written member | corrected member |
|---|---|---|---|---|---|---|
| src/panel.tsx:27 | the panel that vite.config.ts builds appends `message.data` to its log | any message sent by src/content.ts, e.g. a Reflow: it has no `data` field, so the entry is `undefined` and the panel shows an empty item | append `message.eventType`, as src/components/Panel.tsx:39 does | not executed; high that the log shows no event names | Pipeline.DataPanelShowsNoText | Pipeline.EventTypePanelShowsKinds |
