/**
 * The `RENDER_EVENT` messages the content script sends (src/content.ts), as a
 * tagged variant, and the view of a message that a panel listener reads.
 */
module Events {
  import opened Wrappers
  import Dom

  const RenderEventType := "RENDER_EVENT"

  const ReflowName := "Reflow"
  const LayoutShiftName := "Layout Shift"
  const RepaintName := "Repaint"
  const LargeDomUpdateName := "Large DOM Update"

  /** The four `eventType` values the content script ever sends. */
  const EventTypeNames: set<string> := {ReflowName, LayoutShiftName, RepaintName, LargeDomUpdateName}

  /** `elementDetails`: the target's id and class string after the "N/A" default. */
  datatype ElementDetails = ElementDetails(id: string, classes: string)

  /** The fields of a message beyond `type` and `eventType`, one variant per event kind. */
  datatype Body =
    | Reflow(target: Dom.Target, elementDetails: ElementDetails, changeType: string)
    | LayoutShift(affectedElement: string, impact: Dom.ShiftValue)
    | Repaint(targetElement: string, elementDetails: ElementDetails,
              changedAttribute: string, computedValue: string)
    | LargeDomUpdate(targetElement: string, addedNodesCount: nat)

  /** A message as passed to `chrome.runtime.sendMessage`. */
  datatype Message = Message(msgType: string, eventType: string, body: Body)

  /** The `eventType` string that goes with each variant. */
  function KindName(b: Body): (name: string)
    ensures name in EventTypeNames
  {
    match b
    case Reflow(_, _, _) => ReflowName
    case LayoutShift(_, _) => LayoutShiftName
    case Repaint(_, _, _, _) => RepaintName
    case LargeDomUpdate(_, _) => LargeDomUpdateName
  }

  /** A message is well formed when it is a render event whose `eventType` names its variant. */
  predicate WellFormed(m: Message)
  {
    m.msgType == RenderEventType && m.eventType == KindName(m.body)
  }

  /** Builds the message for a body; the only way the content script makes messages. */
  function Make(b: Body): (m: Message)
    ensures WellFormed(m) && m.body == b
    ensures m.eventType in EventTypeNames
  {
    Message(RenderEventType, KindName(b), b)
  }

  /**
   * The three fields a panel listener reads from whatever message reaches it;
   * `None` is a field the message does not have (`undefined`).
   */
  datatype Envelope = Envelope(msgType: Option<string>, eventType: Option<string>, data: Option<string>)

  /**
   * What a listener sees of a content-script message: a well-formed message
   * reaches it as a render event named by one of the four event types, with no `data`.
   */
  function Serialize(m: Message): (e: Envelope)
    ensures WellFormed(m) ==>
      e.msgType == Some(RenderEventType) && e.eventType == Some(KindName(m.body))
      && e.eventType.value in EventTypeNames
    ensures e.data == None
  {
    Envelope(Some(m.msgType), Some(m.eventType), None)
  }

  function SerializeAll(ms: seq<Message>): (es: seq<Envelope>)
    ensures |es| == |ms|
    ensures forall i :: 0 <= i < |ms| ==> es[i] == Serialize(ms[i])
  {
    if ms == [] then [] else SerializeAll(ms[..|ms| - 1]) + [Serialize(ms[|ms| - 1])]
  }
}
