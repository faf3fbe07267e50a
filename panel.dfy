/**
 * The listener of src/panel.tsx, the panel the build ships: the `logs` state
 * starts empty and every render-event message appends its `data` field.
 */
module DataPanel {
  import opened Wrappers
  import opened Events
  import opened Sink

  class Panel {
    /** The `logs` state; `None` is an absent `data` field appended as `undefined`. */
    var logs: seq<Option<string>>

    /** `useState<string[]>([])`. */
    constructor ()
      ensures logs == []
    {
      logs := [];
    }

    /** The `onMessage` listener: `setLogs(prevLogs => [...prevLogs, message.data])` for render events only. */
    method OnMessage(message: Envelope)
      modifies this
      ensures !IsRenderEvent(message) ==> logs == old(logs)
      ensures IsRenderEvent(message) ==> logs == old(logs) + [message.data]
      ensures old(logs) <= logs
    {
      if message.msgType == Some(RenderEventType) {
        logs := logs + [message.data];
      }
    }
  }

  /** A freshly mounted panel that receives `messages` in order ends with the `data` of each render event. */
  method Replay(messages: seq<Envelope>) returns (logs: seq<Option<string>>)
    ensures logs == Logged(messages, DataField)
    ensures |logs| == RenderEventCount(messages)
  {
    var panel := new Panel();
    for i := 0 to |messages|
      invariant panel.logs == Logged(messages[..i], DataField)
    {
      panel.OnMessage(messages[i]);
      assert messages[..i + 1][..i] == messages[..i];
    }
    assert messages[..|messages|] == messages;
    logs := panel.logs;
    LoggedLength(messages, DataField);
  }
}
