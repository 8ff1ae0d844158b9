/**
 * The process-wide state of the screen-sharing core (the static members of
 * class `Main`) and the operations that change it: starting and stopping
 * the sender, the sender thread's loop, starting and stopping the receiver,
 * the receiver's two message handlers, and the statistics update they share.
 * Collaborators the core calls (the screen capturer, the message-queue
 * publishers and subscribers, the clocks, `TimeSpan.Parse`) appear as
 * method parameters or as recorded output.
 */
module ScreenSharing {
  import opened Wrappers
  import opened Wire
  import opened Estimator
  import opened Aggregator
  import opened PublisherLoop

  datatype CommunicationTypes = Sender | Receiver

  /** A publish or subscribe handle: topic, address, port, and whether `Stop` was called on it. */
  datatype Endpoint = Endpoint(topic: string, address: string, port: int, stopped: bool)

  /** How the sender loop ended: never entered, aborted on a missing frame or publisher, or still running. */
  datatype LoopExit = Disabled | Aborted | StillRunning

  /** What a message handler did: updated the state, logged a null message, or threw before changing anything. */
  datatype Delivery = Handled | Ignored | Threw

  /** Whether a stop method returned normally or threw. */
  datatype Completion = Completed | Failed

  const Topic: string := "Screen"
  const TimeBaseTopic: string := "Time"
  const DefaultPort: int := 4112
  const DefaultTimeBasePort: int := 4109

  class Main {
    var FPS: int
    var TransferSpeed: real
    var Ping: real
    var IsImageShowed: bool
    /** The bytes the last displayed image was decoded from. */
    var ScreenImage: Option<Bytes>
    var CommunicationType: CommunicationTypes
    var Port: int
    var TimeBasePort: int
    var MyIP: Option<string>
    var TargetIP: Option<string>
    var Publisher: Option<Endpoint>
    var TimeBasePublisher: Option<Endpoint>
    var Subscriber: Option<Endpoint>
    var TimeBaseSubscriber: Option<Endpoint>
    /** The clock reading at which the receiver's stopwatch was last (re)started. */
    var SubStopwatch: Option<int>
    var HasSenderThread: bool
    var ScreenCapturerRunning: bool
    var IsPublisherEnabled: bool
    var TotalBytesReceived: int
    var FpsCounter: int
    var PublisherTimeBase: int
    var SubscriberPreviousTime: int
    /** Every message handed to the screen-channel publisher, in order. */
    var Published: seq<Bytes>
    /** Every message handed to the time-base publisher, in order. */
    var TimeBasePublished: seq<Bytes>

    /** The handles are created together by the start methods and never cleared. */
    ghost predicate Valid()
      reads this
    {
      && (Publisher.Some? <==> TimeBasePublisher.Some?)
      && (Publisher.Some? <==> HasSenderThread)
      && (Subscriber.Some? <==> TimeBaseSubscriber.Some?)
      && (Subscriber.Some? <==> SubStopwatch.Some?)
    }

    function StatsView(): Stats
      reads this
    {
      Stats(FPS, TransferSpeed, FpsCounter)
    }

    function ReceiverWindow(): Window
      reads this
      requires SubStopwatch.Some?
    {
      Window(StatsView(), TotalBytesReceived, SubStopwatch.value)
    }

    /** The static initialisers: everything zero, null or false, except `IsImageShowed` and the ports. */
    constructor ()
      ensures Valid()
      ensures StatsView() == Stats(0, 0.0, 0) && Ping == 0.0
      ensures IsImageShowed && ScreenImage.None? && CommunicationType == Sender
      ensures Port == DefaultPort && TimeBasePort == DefaultTimeBasePort
      ensures MyIP.None? && TargetIP.None?
      ensures Publisher.None? && Subscriber.None? && !HasSenderThread
      ensures !ScreenCapturerRunning && !IsPublisherEnabled
      ensures TotalBytesReceived == 0 && PublisherTimeBase == 0 && SubscriberPreviousTime == 0
      ensures Published == [] && TimeBasePublished == []
    {
      FPS, TransferSpeed, Ping, FpsCounter := 0, 0.0, 0.0, 0;
      IsImageShowed, ScreenImage, CommunicationType := true, None, Sender;
      Port, TimeBasePort := DefaultPort, DefaultTimeBasePort;
      MyIP, TargetIP := None, None;
      Publisher, TimeBasePublisher, Subscriber, TimeBaseSubscriber := None, None, None, None;
      SubStopwatch, HasSenderThread := None, false;
      ScreenCapturerRunning, IsPublisherEnabled := false, false;
      TotalBytesReceived, PublisherTimeBase, SubscriberPreviousTime := 0, 0, 0;
      Published, TimeBasePublished := [], [];
    }

    /** Folds a closed window into the averages and clears the frame counter. */
    method UpdateStats(totalbytes: int, time: real)
      requires time > 0.0
      modifies this`FPS, this`FpsCounter, this`TransferSpeed
      ensures StatsView() == Aggregator.UpdateStats(old(StatsView()), totalbytes, time)
    {
      var mb: real := 1024.0 * 1024.0;
      var totalMB := totalbytes as real / mb;
      if FPS != 0 {
        FPS := Trunc(FPS as real * 0.9 + 0.1 * FpsCounter as real);
      } else {
        FPS := FpsCounter;
      }
      FpsCounter := 0;
      if TransferSpeed != 0.0 {
        TransferSpeed := TransferSpeed * 0.9 + 0.1 * (totalMB / time);
      } else {
        TransferSpeed := totalMB / time;
      }
    }

    /**
     * Becomes the sender: both publishers on this device's address, the
     * capturer started, the loop enabled and a sender thread created.
     */
    method StartSharing(deviceIP: string)
      requires Valid()
      modifies this`CommunicationType, this`MyIP, this`Publisher, this`TimeBasePublisher
      modifies this`ScreenCapturerRunning, this`IsPublisherEnabled, this`HasSenderThread
      ensures Valid()
      ensures CommunicationType == Sender && MyIP == Some(deviceIP)
      ensures Publisher == Some(Endpoint(Topic, deviceIP, Port, false))
      ensures TimeBasePublisher == Some(Endpoint(TimeBaseTopic, deviceIP, TimeBasePort, false))
      ensures ScreenCapturerRunning && IsPublisherEnabled && HasSenderThread
    {
      CommunicationType := Sender;
      MyIP := Some(deviceIP);
      Publisher := Some(Endpoint(Topic, deviceIP, Port, false));
      TimeBasePublisher := Some(Endpoint(TimeBaseTopic, deviceIP, TimeBasePort, false));
      ScreenCapturerRunning := true;
      IsPublisherEnabled := true;
      HasSenderThread := true;
    }

    /**
     * Disables the loop and stops the capturer, then the publishers, then
     * zeroes FPS and speed.  Without a sender thread (sharing never started)
     * the thread abort throws, the exception is swallowed, and the telemetry
     * is left as it was.
     */
    method StopSharing()
      requires Valid()
      modifies this`IsPublisherEnabled, this`ScreenCapturerRunning, this`Publisher, this`TimeBasePublisher
      modifies this`FPS, this`TransferSpeed
      ensures Valid()
      ensures !IsPublisherEnabled && !ScreenCapturerRunning
      ensures old(HasSenderThread) ==>
        && Publisher == Some(old(Publisher).value.(stopped := true))
        && TimeBasePublisher == Some(old(TimeBasePublisher).value.(stopped := true))
        && FPS == 0 && TransferSpeed == 0.0
      ensures !old(HasSenderThread) ==>
        && Publisher == old(Publisher) && TimeBasePublisher == old(TimeBasePublisher)
        && FPS == old(FPS) && TransferSpeed == old(TransferSpeed)
    {
      IsPublisherEnabled := false;
      ScreenCapturerRunning := false;
      if !HasSenderThread {
        return;
      }
      Publisher := Some(Publisher.value.(stopped := true));
      TimeBasePublisher := Some(TimeBasePublisher.value.(stopped := true));
      FPS := 0;
      TransferSpeed := 0.0;
    }

    /** The loop's local window (bytes sent, stopwatch start) together with the shared state it updates. */
    function LoopView(totalBytesSent: int, stopwatchStart: int): LoopState
      reads this
    {
      LoopState(Window(StatsView(), totalBytesSent, stopwatchStart), Published, TimeBasePublished)
    }

    /**
     * One iteration of the loop with a captured frame: stamp it, publish it,
     * count it, and close the window when more than a second has elapsed.
     */
    method SendFrame(step: SendStep, totalBytesSent: int, stopwatchStart: int) returns (bytes: int, start: int)
      requires step.capture.Some?
      modifies this`FPS, this`TransferSpeed, this`FpsCounter, this`Published, this`TimeBasePublished
      ensures LoopView(bytes, start) == Send(old(LoopView(totalBytesSent, stopwatchStart)), step)
    {
      bytes, start := totalBytesSent, stopwatchStart;
      var timeBytes := ToArray(step.stamp);
      var screenBytes := ToArray(step.capture.value);
      var data := BuildDataMessage(timeBytes, screenBytes);
      Published := Published + [data[..]];
      bytes := bytes + data.Length;
      FpsCounter := FpsCounter + 1;
      if ElapsedMilliseconds(start, step.clock) > WindowMilliseconds {
        FullWindowLastsASecond(start, step.clock);
        UpdateStats(bytes, ElapsedSeconds(start, step.clock));
        start := step.clock;
        bytes := 0;
        TimeBasePublished := TimeBasePublished + [step.timeBaseStamp];
      }
    }

    /**
     * The sender thread's loop over the iterations in `steps`, with its
     * stopwatch started at `startClock`.  Its effect on the shared state is
     * `RunSender` started from an empty window.
     */
    method PublisherCoreFcn(steps: seq<SendStep>, startClock: int) returns (exit: LoopExit, sent: nat)
      requires Valid()
      modifies this`FPS, this`TransferSpeed, this`FpsCounter, this`Published, this`TimeBasePublished
      ensures exit == Disabled <==> !IsPublisherEnabled
      ensures !IsPublisherEnabled || Publisher.None? ==>
        && sent == 0 && StatsView() == old(StatsView())
        && Published == old(Published) && TimeBasePublished == old(TimeBasePublished)
      ensures IsPublisherEnabled && Publisher.None? ==>
        exit == if steps == [] then StillRunning else Aborted
      ensures IsPublisherEnabled && Publisher.Some? ==>
        var r := RunSender(LoopState(Window(old(StatsView()), 0, startClock), old(Published), old(TimeBasePublished)), steps);
        && sent == r.sent
        && StatsView() == r.last.window.stats
        && Published == r.last.published
        && TimeBasePublished == r.last.timeBasePublished
        && exit == if r.sent < |steps| then Aborted else StillRunning
    {
      var stopwatchStart := startClock;
      var totalBytesSent := 0;
      ghost var start := LoopView(0, startClock);
      sent, exit := 0, StillRunning;
      var i := 0;
      while IsPublisherEnabled && i < |steps|
        invariant 0 <= i <= |steps| && sent == i
        invariant !IsPublisherEnabled ==> i == 0
        invariant i == 0 ==> StatsView() == old(StatsView())
        invariant i == 0 ==> Published == old(Published) && TimeBasePublished == old(TimeBasePublished)
        invariant Publisher.None? ==> i == 0
        invariant Publisher.Some? ==>
          var rest := RunSender(LoopView(totalBytesSent, stopwatchStart), steps[i..]);
          RunSender(start, steps) == SenderRun(rest.last, i + rest.sent)
      {
        var step := steps[i];
        if step.capture.Some? && Publisher.Some? {
          totalBytesSent, stopwatchStart := SendFrame(step, totalBytesSent, stopwatchStart);
          assert steps[i..][1..] == steps[i + 1..];
          sent := sent + 1;
        } else {
          exit := Aborted;
          break;
        }
        i := i + 1;
      }
      if !IsPublisherEnabled {
        exit := Disabled;
      }
    }

    /** Becomes the receiver of `ip`: both subscribers on that address and the stopwatch started at `clock`. */
    method StartReceiving(ip: string, clock: int)
      requires Valid()
      modifies this`TargetIP, this`Subscriber, this`TimeBaseSubscriber, this`SubStopwatch, this`CommunicationType
      ensures Valid()
      ensures TargetIP == Some(ip) && CommunicationType == Receiver
      ensures Subscriber == Some(Endpoint(Topic, ip, Port, false))
      ensures TimeBaseSubscriber == Some(Endpoint(TimeBaseTopic, ip, TimeBasePort, false))
      ensures SubStopwatch == Some(clock)
    {
      TargetIP := Some(ip);
      Subscriber := Some(Endpoint(Topic, ip, Port, false));
      TimeBaseSubscriber := Some(Endpoint(TimeBaseTopic, ip, TimeBasePort, false));
      SubStopwatch := Some(clock);
      CommunicationType := Receiver;
    }

    /**
     * A time-base message resynchronises the sender-clock estimate to the
     * time it carries.  Text that does not parse throws before anything
     * changes.  Nothing but `PublisherTimeBase` is touched.
     */
    method TimeBaseSubscriberOnDataReceived(data: array?<byte>, parse: Bytes -> Option<int>) returns (outcome: Delivery)
      modifies this`PublisherTimeBase
      ensures data == null ==> outcome == Ignored
      ensures data != null ==> outcome == if parse(data[..]).Some? then Handled else Threw
      ensures outcome == Handled ==> PublisherTimeBase == parse(data[..]).value
      ensures outcome != Handled ==> PublisherTimeBase == old(PublisherTimeBase)
    {
      if data == null {
        return Ignored;
      }
      var parsed := parse(data[..]);
      if parsed.None? {
        return Threw;
      }
      PublisherTimeBase := parsed.value;
      return Handled;
    }

    /**
     * A data message: split off the timestamp, advance the sender-clock
     * estimate by the local time since the previous message, update the
     * ping, keep the image bytes, and count the message into the window.
     * A message shorter than the timestamp, or a timestamp that does not
     * parse, throws before anything changes.
     */
    method SubscriberOnDataReceived(data: array?<byte>, parse: Bytes -> Option<int>, timeOfDay: int, clock: int)
      returns (outcome: Delivery)
      requires Valid() && SubStopwatch.Some?
      modifies this`PublisherTimeBase, this`SubscriberPreviousTime, this`Ping, this`ScreenImage
      modifies this`TotalBytesReceived, this`FpsCounter, this`FPS, this`TransferSpeed
      modifies this`SubStopwatch, this`IsImageShowed
      ensures Valid() && SubStopwatch.Some?
      ensures data == null ==> outcome == Ignored
      ensures data != null ==>
        outcome == if Decode(old(data[..])).None? || parse(Decode(old(data[..])).value.stamp).None? then Threw else Handled
      ensures outcome != Handled ==>
        && PublisherTimeBase == old(PublisherTimeBase) && SubscriberPreviousTime == old(SubscriberPreviousTime)
        && Ping == old(Ping) && ScreenImage == old(ScreenImage) && IsImageShowed == old(IsImageShowed)
        && ReceiverWindow() == old(ReceiverWindow())
      ensures outcome == Handled ==>
        var m := Decode(old(data[..])).value;
        var sentTime := parse(m.stamp).value;
        && PublisherTimeBase == old(PublisherTimeBase) + (timeOfDay - old(SubscriberPreviousTime))
        && SubscriberPreviousTime == timeOfDay
        && Ping == NextPing(old(Ping), Delta(PublisherTimeBase, sentTime))
        && ScreenImage == Some(m.payload)
        && ReceiverWindow() == Receive(old(ReceiverWindow()), data.Length, clock)
        && IsImageShowed
    {
      if data == null {
        return Ignored;
      }
      if data.Length < StampWidth {
        return Threw;
      }
      var timeBytes := CopyRange(data, 0, StampWidth);
      assert timeBytes[..] == Decode(data[..]).value.stamp;
      var parsed := parse(timeBytes[..]);
      if parsed.None? {
        return Threw;
      }
      AcceptFrame(data, parsed.value, timeOfDay, clock);
      return Handled;
    }

    /** The handler's work on a well-formed message whose timestamp parsed to `sentTime`. */
    method AcceptFrame(data: array<byte>, sentTime: int, timeOfDay: int, clock: int)
      requires data.Length >= StampWidth && SubStopwatch.Some?
      modifies this`PublisherTimeBase, this`SubscriberPreviousTime, this`Ping, this`ScreenImage
      modifies this`TotalBytesReceived, this`FpsCounter, this`FPS, this`TransferSpeed
      modifies this`SubStopwatch, this`IsImageShowed
      ensures SubStopwatch.Some?
      ensures PublisherTimeBase == old(PublisherTimeBase) + (timeOfDay - old(SubscriberPreviousTime))
      ensures SubscriberPreviousTime == timeOfDay
      ensures Ping == NextPing(old(Ping), Delta(PublisherTimeBase, sentTime))
      ensures ScreenImage == Some(old(data[StampWidth..]))
      ensures ReceiverWindow() == Receive(old(ReceiverWindow()), data.Length, clock)
      ensures IsImageShowed
    {
      var currentTime := timeOfDay;
      AdvanceEstimate(sentTime, currentTime);
      var screenBytes := CopyRange(data, StampWidth, data.Length - StampWidth);
      assert screenBytes[..] == data[StampWidth..];
      ScreenImage := Some(screenBytes[..]);
      CountReceived(data.Length, clock);
      IsImageShowed := true;
    }

    /** The handler's estimator steps (advance the estimate, remember the time, update the ping). */
    method AdvanceEstimate(sentTime: int, currentTime: int)
      modifies this`PublisherTimeBase, this`SubscriberPreviousTime, this`Ping
      ensures PublisherTimeBase == old(PublisherTimeBase) + (currentTime - old(SubscriberPreviousTime))
      ensures SubscriberPreviousTime == currentTime
      ensures Ping == NextPing(old(Ping), Delta(PublisherTimeBase, sentTime))
    {
      PublisherTimeBase := PublisherTimeBase + (currentTime - SubscriberPreviousTime);
      SubscriberPreviousTime := currentTime;
      var deltaTime := TotalMilliseconds(PublisherTimeBase) - TotalMilliseconds(sentTime);
      if Ping <= 0.0 {
        Ping := deltaTime;
      }
      Ping := Ping * 0.99 + 0.01 * deltaTime;
    }

    /** The handler's window steps: count the message, and close the window after a second. */
    method CountReceived(length: int, clock: int)
      requires SubStopwatch.Some?
      modifies this`TotalBytesReceived, this`FpsCounter, this`FPS, this`TransferSpeed, this`SubStopwatch
      ensures SubStopwatch.Some?
      ensures ReceiverWindow() == Receive(old(ReceiverWindow()), length, clock)
    {
      TotalBytesReceived := TotalBytesReceived + length;
      FpsCounter := FpsCounter + 1;
      if ElapsedMilliseconds(SubStopwatch.value, clock) >= WindowMilliseconds {
        FullWindowLastsASecond(SubStopwatch.value, clock);
        UpdateStats(TotalBytesReceived, ElapsedSeconds(SubStopwatch.value, clock));
        TotalBytesReceived := 0;
        SubStopwatch := Some(clock);
      }
    }

    /**
     * Stops both subscribers and zeroes FPS and speed.  Without subscribers
     * (receiving never started) the first call throws and nothing changes.
     */
    method StopReceiving() returns (c: Completion)
      requires Valid()
      modifies this`Subscriber, this`TimeBaseSubscriber, this`FPS, this`TransferSpeed
      ensures Valid()
      ensures c == Completed <==> old(Subscriber).Some?
      ensures c == Completed ==>
        && Subscriber == Some(old(Subscriber).value.(stopped := true))
        && TimeBaseSubscriber == Some(old(TimeBaseSubscriber).value.(stopped := true))
        && FPS == 0 && TransferSpeed == 0.0
      ensures c == Failed ==> unchanged(this)
    {
      if Subscriber.None? {
        return Failed;
      }
      Subscriber := Some(Subscriber.value.(stopped := true));
      TimeBaseSubscriber := Some(TimeBaseSubscriber.value.(stopped := true));
      FPS := 0;
      TransferSpeed := 0.0;
      return Completed;
    }
  }
}
