/**
 * Callers of the `Main` operations that check, from the contracts alone,
 * behaviour promised across several calls: stopping twice, and a time-base
 * resynchronisation followed by a data message.
 */
module Scenarios {
  import opened Wrappers
  import opened Wire
  import opened ScreenSharing

  /** A second `StopSharing` changes nothing the first one set. */
  method StopSharingTwice(m: Main)
    requires m.Valid()
    modifies m
    ensures m.Valid() && !m.IsPublisherEnabled && !m.ScreenCapturerRunning
    ensures old(m.HasSenderThread) ==> m.FPS == 0 && m.TransferSpeed == 0.0
  {
    m.StopSharing();
    ghost var fps, speed, publisher, timeBasePublisher := m.FPS, m.TransferSpeed, m.Publisher, m.TimeBasePublisher;
    m.StopSharing();
    assert m.FPS == fps && m.TransferSpeed == speed;
    assert m.Publisher == publisher && m.TimeBasePublisher == timeBasePublisher;
  }

  /** A second `StopReceiving` completes again and changes nothing the first one set. */
  method StopReceivingTwice(m: Main) returns (first: Completion, second: Completion)
    requires m.Valid()
    modifies m
    ensures first == second
    ensures first == Completed ==> m.FPS == 0 && m.TransferSpeed == 0.0
  {
    first := m.StopReceiving();
    ghost var fps, speed, subscriber, timeBaseSubscriber := m.FPS, m.TransferSpeed, m.Subscriber, m.TimeBaseSubscriber;
    second := m.StopReceiving();
    assert m.FPS == fps && m.TransferSpeed == speed;
    assert m.Subscriber == subscriber && m.TimeBaseSubscriber == timeBaseSubscriber;
  }

  /**
   * After a time-base message carrying `T`, the next data message computes
   * its sample from `T` advanced by the local time since the previous data
   * message: the stale estimate is gone.
   */
  method ResyncThenFrame(m: Main, timeBase: array<byte>, frame: array<byte>,
                         parse: Bytes -> Option<int>, timeOfDay: int, clock: int)
    returns (resync: Delivery, delivery: Delivery)
    requires m.Valid() && m.SubStopwatch.Some?
    modifies m
    ensures resync == if parse(old(timeBase[..])).Some? then Handled else Threw
    ensures resync == Handled && delivery == Handled ==>
      m.PublisherTimeBase == parse(old(timeBase[..])).value + (timeOfDay - old(m.SubscriberPreviousTime))
  {
    resync := m.TimeBaseSubscriberOnDataReceived(timeBase, parse);
    delivery := m.SubscriberOnDataReceived(frame, parse, timeOfDay, clock);
  }
}
