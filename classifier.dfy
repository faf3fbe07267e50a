/**
 * The per-record rules of the content script (src/content.ts): the sentinel
 * defaults, the repaint allow-list, the large-update threshold and the
 * layout-shift filter. Each rule turns one record into at most one message.
 */
module Classifier {
  import opened Wrappers
  import Dom
  import opened Events

  const NotAvailable := "N/A"
  const UnknownElement := "Unknown"
  const LayoutShiftEntryType := "layout-shift"

  /** More than this many added nodes in one record is a large DOM update. */
  const LargeDomThreshold: nat := 20

  /** The CSS property names whose change is reported as a repaint, in source order. */
  const RepaintProperties: seq<string> := [
    "color", "background", "background-color",
    "border", "border-color", "border-style", "border-width",
    "box-shadow",
    "outline", "outline-color", "outline-style", "outline-width",
    "visibility", "opacity", "filter", "mix-blend-mode", "backdrop-filter",
    "clip", "clip-path",
    "mask", "mask-image", "mask-position", "mask-size", "mask-repeat", "mask-clip",
    "text-shadow", "text-decoration", "text-decoration-color", "text-outline",
    "letter-spacing", "word-spacing",
    "background-blend-mode", "background-image", "background-position",
    "background-size", "background-repeat", "background-attachment",
    "cursor", "caret-color", "selection"
  ]

  /** JavaScript's `s || fallback` on a string: the empty string is falsy. */
  function OrDefault(s: string, fallback: string): (r: string)
    ensures s != "" ==> r == s
    ensures s == "" ==> r == fallback
  {
    if s != "" then s else fallback
  }

  /** `elementDetails` for a target: id and class string, "N/A" where empty. */
  function Details(t: Dom.Target): (d: ElementDetails)
    ensures d.id != "" && d.classes != ""
    ensures d.id == (if t.id != "" then t.id else NotAvailable)
    ensures d.classes == (if t.classes != "" then t.classes else NotAvailable)
  {
    ElementDetails(OrDefault(t.id, NotAvailable), OrDefault(t.classes, NotAvailable))
  }

  /** `repaintProperties.includes(changedAttribute!)`: exact, case-sensitive membership; `null` is never included. */
  predicate IsRepaintProperty(name: Option<string>)
    ensures IsRepaintProperty(name) ==> name.Some? && name.value in RepaintProperties
    ensures name == None ==> !IsRepaintProperty(name)
    ensures name == Some("background-color") ==> IsRepaintProperty(name)
    ensures name == Some("Color") ==> !IsRepaintProperty(name)
    ensures name == Some("style") || name == Some("class") ==> !IsRepaintProperty(name)
  {
    name.Some? && name.value in RepaintProperties
  }

  /** The Reflow message for a record; the reflow observer sends one for every record. */
  function ReflowMessage(m: Dom.MutationRecord): (msg: Message)
    ensures WellFormed(msg) && msg.eventType == ReflowName && msg.body.Reflow?
    ensures msg.body.target == m.target
    ensures msg.body.changeType == Dom.TypeString(m.kind)
    ensures msg.body.changeType == "attributes" || msg.body.changeType == "childList"
    ensures msg.body.elementDetails == Details(m.target)
  {
    Make(Reflow(m.target, Details(m.target), Dom.TypeString(m.kind)))
  }

  /** The reflow rule never filters: every record gives its Reflow message. */
  function ClassifyReflow(m: Dom.MutationRecord): (r: Option<Message>)
    ensures r == Some(ReflowMessage(m))
  {
    Some(ReflowMessage(m))
  }

  /**
   * The Repaint message for a record, if any. `computedStyle(target, property)`
   * stands for `getComputedStyle(target).getPropertyValue(property)`, whose
   * result the model does not interpret.
   */
  function ClassifyRepaint(m: Dom.MutationRecord, computedStyle: (Dom.Target, string) -> string): (r: Option<Message>)
    ensures r.Some? <==> m.kind == Dom.Attributes && m.attributeName.Some? && m.attributeName.value in RepaintProperties
    ensures r.Some? ==>
      && WellFormed(r.value) && r.value.eventType == RepaintName && r.value.body.Repaint?
      && Some(r.value.body.changedAttribute) == m.attributeName
      && r.value.body.changedAttribute in RepaintProperties
      && r.value.body.targetElement == m.target.nodeName
      && r.value.body.elementDetails == Details(m.target)
      && r.value.body.computedValue == computedStyle(m.target, r.value.body.changedAttribute)
  {
    if m.kind == Dom.Attributes && IsRepaintProperty(m.attributeName) then
      Some(Make(Repaint(m.target.nodeName, Details(m.target), m.attributeName.value,
                        computedStyle(m.target, m.attributeName.value))))
    else None
  }

  /** The Large DOM Update message for a record, if any. */
  function ClassifyLargeDom(m: Dom.MutationRecord): (r: Option<Message>)
    ensures r.Some? <==> m.addedNodes > 20
    ensures m.addedNodes == 20 ==> r == None
    ensures m.addedNodes == 21 ==> r.Some? && r.value.body == LargeDomUpdate(m.target.nodeName, 21)
    ensures r.Some? ==>
      && WellFormed(r.value) && r.value.eventType == LargeDomUpdateName
      && r.value.body == LargeDomUpdate(m.target.nodeName, m.addedNodes)
  {
    if m.addedNodes > LargeDomThreshold then
      Some(Make(LargeDomUpdate(m.target.nodeName, m.addedNodes)))
    else None
  }

  /** `sources?.[0]?.nodeName || "Unknown"`. */
  function AffectedElement(sources: Option<seq<Dom.Attribution>>): (name: string)
    ensures name != ""
    ensures sources.None? || sources == Some([]) ==> name == UnknownElement
    ensures name != UnknownElement ==>
      sources.Some? && |sources.value| > 0 && sources.value[0].nodeName == Some(name)
    ensures (sources.Some? && |sources.value| > 0 && sources.value[0].nodeName.Some?
             && sources.value[0].nodeName.value != "") ==>
      name == sources.value[0].nodeName.value
  {
    if sources.Some? && |sources.value| > 0 && sources.value[0].nodeName.Some? then
      OrDefault(sources.value[0].nodeName.value, UnknownElement)
    else UnknownElement
  }

  /** The Layout Shift message for a performance entry, if any. */
  function ClassifyLayoutShift(e: Dom.PerformanceEntry): (r: Option<Message>)
    ensures r.Some? <==> e.entryType == "layout-shift"
    ensures r.Some? ==>
      && WellFormed(r.value) && r.value.eventType == LayoutShiftName
      && r.value.body == LayoutShift(AffectedElement(e.sources), e.value)
  {
    if e.entryType == LayoutShiftEntryType then
      Some(Make(LayoutShift(AffectedElement(e.sources), e.value)))
    else None
  }
}
