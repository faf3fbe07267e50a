/**
 * What both panel listeners share (src/components/Panel.tsx, src/panel.tsx):
 * ignore every message whose `type` is not "RENDER_EVENT", and append one
 * field of every other message to the log.
 */
module Sink {
  import opened Wrappers
  import opened Events

  /** `message.type === "RENDER_EVENT"`. */
  predicate IsRenderEvent(e: Envelope)
    ensures IsRenderEvent(e) ==> e.msgType.Some? && e.msgType.value == "RENDER_EVENT"
    ensures e.msgType == None ==> !IsRenderEvent(e)
    ensures e.msgType == Some("render_event") ==> !IsRenderEvent(e)
  {
    e.msgType == Some(RenderEventType)
  }

  /** The field src/components/Panel.tsx logs. */
  function EventTypeField(e: Envelope): Option<string>
  {
    e.eventType
  }

  /** The field src/panel.tsx logs. */
  function DataField(e: Envelope): Option<string>
  {
    e.data
  }

  /** The number of render-event messages in a sequence. */
  function RenderEventCount(messages: seq<Envelope>): (n: nat)
    ensures n <= |messages|
  {
    if messages == [] then 0
    else
      var last: nat := if IsRenderEvent(messages[|messages| - 1]) then 1 else 0;
      RenderEventCount(messages[..|messages| - 1]) + last
  }

  /** The log a listener holds after `messages`, starting empty: the selected field of each render event, in arrival order. */
  function Logged(messages: seq<Envelope>, select: Envelope -> Option<string>): (log: seq<Option<string>>)
    ensures |log| <= |messages|
    ensures messages != [] && IsRenderEvent(messages[|messages| - 1]) ==>
      |log| > 0 && log[|log| - 1] == select(messages[|messages| - 1])
  {
    if messages == [] then []
    else
      var log := Logged(messages[..|messages| - 1], select);
      var last := messages[|messages| - 1];
      if IsRenderEvent(last) then log + [select(last)] else log
  }

  /** The log has one entry per render event received. */
  lemma {:induction false} LoggedLength(messages: seq<Envelope>, select: Envelope -> Option<string>)
    ensures |Logged(messages, select)| == RenderEventCount(messages)
  {
    if messages != [] {
      LoggedLength(messages[..|messages| - 1], select);
    }
  }

  /** Receiving more messages only extends the log: what was logged stays, in place and in order. */
  lemma {:induction false} LoggedAppend(a: seq<Envelope>, b: seq<Envelope>, select: Envelope -> Option<string>)
    ensures Logged(a + b, select) == Logged(a, select) + Logged(b, select)
    ensures Logged(a, select) <= Logged(a + b, select)
  {
    if b == [] {
      assert a + b == a;
    } else {
      var b' := b[..|b| - 1];
      assert (a + b)[..|a + b| - 1] == a + b';
      assert (a + b)[|a + b| - 1] == b[|b| - 1];
      LoggedAppend(a, b', select);
    }
  }

  /** Messages that are not render events leave no trace in the log. */
  lemma {:induction false} LoggedIgnoresOthers(messages: seq<Envelope>, select: Envelope -> Option<string>)
    requires forall i :: 0 <= i < |messages| ==> !IsRenderEvent(messages[i])
    ensures Logged(messages, select) == []
  {
    if messages != [] {
      LoggedIgnoresOthers(messages[..|messages| - 1], select);
    }
  }

  /** When every message is a render event, the log is the selected field of each, position by position. */
  lemma {:induction false} LoggedAllRenderEvents(messages: seq<Envelope>, select: Envelope -> Option<string>)
    requires forall i :: 0 <= i < |messages| ==> IsRenderEvent(messages[i])
    ensures |Logged(messages, select)| == |messages|
    ensures forall i :: 0 <= i < |messages| ==> Logged(messages, select)[i] == select(messages[i])
  {
    if messages != [] {
      LoggedAllRenderEvents(messages[..|messages| - 1], select);
    }
  }
}
