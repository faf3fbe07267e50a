/**
 * The listener of src/components/Panel.tsx: the `logs` state starts empty and
 * every render-event message appends its `eventType`.
 */
module ComponentsPanel {
  import opened Wrappers
  import opened Events
  import opened Sink

  class Panel {
    /** The `logs` state; `None` is an absent `eventType` appended as `undefined`. */
    var logs: seq<Option<string>>

    /** `useState<string[]>([])`. */
    constructor ()
      ensures logs == []
    {
      logs := [];
    }

    /** The `onMessage` listener: `setLogs(prevLogs => [...prevLogs, message.eventType])` for render events only. */
    method OnMessage(message: Envelope)
      modifies this
      ensures !IsRenderEvent(message) ==> logs == old(logs)
      ensures IsRenderEvent(message) ==> logs == old(logs) + [message.eventType]
      ensures old(logs) <= logs
    {
      if message.msgType == Some(RenderEventType) {
        logs := logs + [message.eventType];
      }
    }
  }

  /** A freshly mounted panel that receives `messages` in order ends with the `eventType` of each render event. */
  method Replay(messages: seq<Envelope>) returns (logs: seq<Option<string>>)
    ensures logs == Logged(messages, EventTypeField)
    ensures |logs| == RenderEventCount(messages)
  {
    var panel := new Panel();
    for i := 0 to |messages|
      invariant panel.logs == Logged(messages[..i], EventTypeField)
    {
      panel.OnMessage(messages[i]);
      assert messages[..i + 1][..i] == messages[..i];
    }
    assert messages[..|messages|] == messages;
    logs := panel.logs;
    LoggedLength(messages, EventTypeField);
  }
}
