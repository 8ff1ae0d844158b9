# Screen-sharing streaming and telemetry core, in Dafny

This project models the streaming core of a desktop screen-sharing program
(class `Main` in `ScreenSharing_Desktop/ScreenSharing_Desktop/CoreClasses/Main.cs`). A sender thread captures screen frames, prefixes
each with the time of day as ASCII text and publishes it on a "Screen"
topic. Once a second it also publishes a bare time-of-day message on a
"Time" topic. The receiver splits each frame message into a 16-byte
timestamp and the image bytes. It keeps an estimate of the sender's clock,
resynchronised by every time-base message and advanced by local elapsed
time on every frame. From that estimate it derives a smoothed "ping". Both
ends fold one-second windows of frame and byte counts into moving averages
for frames per second and megabytes per second.

Modules:

- `Wire`: the data-message layout as functions on byte sequences (`Encode`, `Decode`) and the round trip between them. Also the in-place array copies the source uses (`CopyTo`, `Array.Copy`) as methods proved against those functions.
- `Estimator`: the clock-offset estimate and the ping update, with convergence and range lemmas.
- `Aggregator`: `UpdateStats` as functions (`NextFps`, `NextTransferSpeed`), the counting window and the receiver's accounting of a sequence of messages.
- `PublisherLoop`: the sender loop as a function of what its collaborators return (`RunSender`), with lemmas about what it publishes.
- `ScreenSharing`: class `Main`, holding the static fields as fields. Its start and stop methods, the sender loop `PublisherCoreFcn` and the two receive handlers update those fields. Each method's contract ties the new state to the functions above.
- `Scenarios`: callers that check behaviour across several calls: stopping twice, and a resync followed by a frame.

Collaborators appear as inputs:

- The screen capturer's result is an `Option` per loop iteration.
- The time-of-day text is a byte sequence supplied per frame.
- `TimeSpan.Parse` is a function parameter `Bytes -> Option<int>`. `None` stands for a `FormatException`.
- Clocks are tick counts supplied by the caller: 100 ns ticks, as `TimeSpan` counts them.
- Publishing is recorded as the sequences `Published` and `TimeBasePublished`.

## Behaviours of the code the model makes explicit

- **Timestamp width.** The receiver always cuts the first 16 bytes off a message as the timestamp (`Main.cs:271-272`). The sender writes `TimeOfDay.ToString()` (`Main.cs:219-220`), which drops the fraction when it is zero (`hh:mm:ss`, 8 bytes). `Wire.RoundTripOnlyAtFullWidth` proves the round trip holds exactly when the stamp is 16 bytes. `Wire.ShortStampShiftsPayload` shows that a shorter stamp swallows the first image bytes.
- **Malformed messages.** The handler checks neither length nor text. `Array.Copy` (`Main.cs:272`) throws on a message shorter than 16 bytes. `TimeSpan.Parse` (`Main.cs:274`) throws on bad text. Both happen before any state changes. The model returns `Threw` and proves the state unchanged.
- **Ping cold start.** The code tests `Ping <= 0` on every frame. A negative estimate is therefore never averaged: `Estimator.NonPositivePingFollowsLastSample` proves that a run of non-positive samples leaves the last sample.
- **What a resync changes.** A resync sets `PublisherTimeBase` but not `SubscriberPreviousTime`. The next sample therefore includes the gap between the previous frame and the resync (`Estimator.SampleUnderEqualClockRates`).
- **No reset on a new session.** `StartReceiving` resets no estimator state, and neither stop method resets `FpsCounter` or `TotalBytesReceived`.
- **StopSharing.** It zeroes the telemetry only when a sender thread exists. Otherwise `SenderThread.Abort()` throws on null, the `catch` swallows the exception, and FPS and speed stay as they were.
- **StopReceiving.** It has no `catch`: before `StartReceiving` it throws and changes nothing.
- **Window boundaries.** The sender closes its window at strictly more than 1000 ms, the receiver at 1000 ms or more.
- **Cold-start test for the averages.** FPS and speed take the window value directly when the old value is exactly zero (`!= 0` test), not "the first time".

## Model

| member | source | states |
|---|---|---|
| Wire.Encode | ScreenSharing_Desktop/ScreenSharing_Desktop/CoreClasses/Main.cs:219-223 | the message is as long as stamp and image together, starts with the stamp and ends with the image |
| Wire.Decode | ScreenSharing_Desktop/ScreenSharing_Desktop/CoreClasses/Main.cs:271-283 | a message splits exactly when it has at least 16 bytes; the stamp is then 16 bytes, the payload has the remaining length, and re-encoding the two gives the message back |
| Wire.RoundTrip | ScreenSharing_Desktop/ScreenSharing_Desktop/CoreClasses/Main.cs:271-283 | a 16-byte stamp and any image decode to themselves after encoding |
| Wire.RoundTripOnlyAtFullWidth | ScreenSharing_Desktop/ScreenSharing_Desktop/CoreClasses/Main.cs:219-223 | the round trip holds if and only if the stamp is 16 bytes |
| Wire.ShortStampShiftsPayload | ScreenSharing_Desktop/ScreenSharing_Desktop/CoreClasses/Main.cs:219-223 | a shorter stamp decodes as the stamp plus the first image bytes, and the image loses those bytes |
| Wire.CopyTo | ScreenSharing_Desktop/ScreenSharing_Desktop/CoreClasses/Main.cs:222-223 | `CopyTo` overwrites the target from the index with the source and leaves the rest of the target as it was |
| Wire.CopyRange | ScreenSharing_Desktop/ScreenSharing_Desktop/CoreClasses/Main.cs:271-283 | a fresh array filled by `Array.Copy` holds exactly the requested slice of the source |
| Wire.BuildDataMessage | ScreenSharing_Desktop/ScreenSharing_Desktop/CoreClasses/Main.cs:221-223 | the freshly allocated message array holds `Encode` of the stamp and image arrays |
| Wire.ToArray | ScreenSharing_Desktop/ScreenSharing_Desktop/CoreClasses/Main.cs:216-220 | the byte array handed over holds exactly the given bytes |
| Estimator.NextPing | ScreenSharing_Desktop/ScreenSharing_Desktop/CoreClasses/Main.cs:279-281 | a non-positive old ping yields exactly the sample; otherwise the new ping lies between old ping and sample, 0.99 of the old distance from the sample |
| Estimator.PingConverges | ScreenSharing_Desktop/ScreenSharing_Desktop/CoreClasses/Main.cs:279-281 | under a constant sample the distance to it shrinks at least by 0.99 per frame (0.99^k after k frames) |
| Estimator.PingNeverMovesAway | ScreenSharing_Desktop/ScreenSharing_Desktop/CoreClasses/Main.cs:279-281 | under a constant sample the distance between ping and sample never grows |
| Estimator.PingSettles | ScreenSharing_Desktop/ScreenSharing_Desktop/CoreClasses/Main.cs:279-281 | a ping equal to the sample stays there for any number of frames |
| Estimator.PingStaysInRange | ScreenSharing_Desktop/ScreenSharing_Desktop/CoreClasses/Main.cs:279-281 | the ping stays within any range that holds the start and every sample |
| Estimator.NonPositivePingFollowsLastSample | ScreenSharing_Desktop/ScreenSharing_Desktop/CoreClasses/Main.cs:279-280 | from a non-positive ping, a run of non-positive samples leaves the ping equal to the last sample |
| Estimator.SampleUnderEqualClockRates | ScreenSharing_Desktop/ScreenSharing_Desktop/CoreClasses/Main.cs:257-278 | with equal clock rates the sample is frame latency minus time-base latency plus the time from the previous frame to the resync |
| Aggregator.Trunc | ScreenSharing_Desktop/ScreenSharing_Desktop/CoreClasses/Main.cs:314 | the `(int)` cast: the integer next to the value on the side of zero |
| Aggregator.NextFps | ScreenSharing_Desktop/ScreenSharing_Desktop/CoreClasses/Main.cs:313-316 | zero FPS takes the frame count; otherwise the result is the 0.9/0.1 average truncated toward zero (at most 1 below it when it is non-negative, at most 1 above it when negative); always between old FPS and count; a count equal to FPS is a fixed point |
| Aggregator.NextTransferSpeed | ScreenSharing_Desktop/ScreenSharing_Desktop/CoreClasses/Main.cs:311-321 | zero speed takes the window's MB/s; otherwise 0.9 of the old distance from it; always between the two; a fixed point when equal |
| Aggregator.FullWindowLastsASecond | ScreenSharing_Desktop/ScreenSharing_Desktop/CoreClasses/Main.cs:287-289 | a window of at least 1000 whole milliseconds lasts at least one second, so the division in `UpdateStats` is defined |
| Aggregator.Roll | ScreenSharing_Desktop/ScreenSharing_Desktop/CoreClasses/Main.cs:289-291 | closing a window clears the byte count and the frame counter and restarts the stopwatch at the closing reading |
| Aggregator.QuietWindow | ScreenSharing_Desktop/ScreenSharing_Desktop/CoreClasses/Main.cs:285-287 | inside a window each message adds its full length, stamp included, to the bytes and one to the counter; FPS and speed do not change |
| Aggregator.ClosingWindow | ScreenSharing_Desktop/ScreenSharing_Desktop/CoreClasses/Main.cs:285-292 | the message that closes the window is counted in it, the statistics are updated with all frames and bytes of the window, and bytes go to 0 |
| Aggregator.ColdWindow | ScreenSharing_Desktop/ScreenSharing_Desktop/CoreClasses/Main.cs:313-321 | the first window of a session yields FPS = frames in the window and speed = its MB/s |
| Aggregator.SteadyWindow | ScreenSharing_Desktop/ScreenSharing_Desktop/CoreClasses/Main.cs:313-321 | a window repeating the averaged frame count and MB/s leaves both unchanged |
| Aggregator.SteadyStream | ScreenSharing_Desktop/ScreenSharing_Desktop/CoreClasses/Main.cs:285-292 | ten 100000-byte frames a second give FPS 10 and 1000160/1048576 MB/s after the first second, and the same after the second |
| PublisherLoop.Send | ScreenSharing_Desktop/ScreenSharing_Desktop/CoreClasses/Main.cs:216-235 | a frame appends its encoding to the screen channel. Past 1000 ms the window has lasted at least a second, FPS and speed become `UpdateStats` of the window including this frame, the time-base text is appended, bytes and counter clear and the window restarts. Otherwise the frame is only counted |
| PublisherLoop.RunSender | ScreenSharing_Desktop/ScreenSharing_Desktop/CoreClasses/Main.cs:214-242 | the loop never sends more frames than it has iterations |
| PublisherLoop.PublishesEachCapture | ScreenSharing_Desktop/ScreenSharing_Desktop/CoreClasses/Main.cs:214-242 | every captured frame is published once, encoded, in order; the loop stops at the first missing frame and publishes nothing after it |
| PublisherLoop.TimeBaseOnlyFromSentFrames | ScreenSharing_Desktop/ScreenSharing_Desktop/CoreClasses/Main.cs:227-235 | at most one time-base message per frame sent, each the time-base text of an iteration that ran, earlier output kept |
| PublisherLoop.QuietSender | ScreenSharing_Desktop/ScreenSharing_Desktop/CoreClasses/Main.cs:225-227 | while the window stays open nothing goes to the time-base channel and the byte count grows by the length of every published message |
| ScreenSharing.Main.constructor | ScreenSharing_Desktop/ScreenSharing_Desktop/CoreClasses/Main.cs:127-170 | initial values: telemetry zero, no handles, ports 4112 and 4109, `IsImageShowed` true, role `Sender` (the enum default) |
| ScreenSharing.Main.UpdateStats | ScreenSharing_Desktop/ScreenSharing_Desktop/CoreClasses/Main.cs:309-322 | FPS, speed and counter become `Aggregator.UpdateStats` of the old values |
| ScreenSharing.Main.StartSharing | ScreenSharing_Desktop/ScreenSharing_Desktop/CoreClasses/Main.cs:181-191 | role Sender, both publishers on the device address and their ports, capturer running, loop enabled, thread created |
| ScreenSharing.Main.StopSharing | ScreenSharing_Desktop/ScreenSharing_Desktop/CoreClasses/Main.cs:192-208 | loop disabled and capturer stopped; with a thread, publishers stopped and FPS and speed zero; without one, these stay as they were |
| ScreenSharing.Main.SendFrame | ScreenSharing_Desktop/ScreenSharing_Desktop/CoreClasses/Main.cs:216-235 | one iteration with a frame performs `PublisherLoop.Send` on the shared state and the loop's window |
| ScreenSharing.Main.PublisherCoreFcn | ScreenSharing_Desktop/ScreenSharing_Desktop/CoreClasses/Main.cs:209-243 | disabled: nothing happens; no publisher: aborts without publishing; otherwise the state becomes `RunSender` from an empty window, aborting exactly when a capture was missing |
| ScreenSharing.Main.StartReceiving | ScreenSharing_Desktop/ScreenSharing_Desktop/CoreClasses/Main.cs:246-255 | role Receiver, both subscribers on the target address, stopwatch started |
| ScreenSharing.Main.TimeBaseSubscriberOnDataReceived | ScreenSharing_Desktop/ScreenSharing_Desktop/CoreClasses/Main.cs:257-264 | a parsed message sets `PublisherTimeBase` to its value; null is ignored; bad text throws with no change; nothing else is touched |
| ScreenSharing.Main.SubscriberOnDataReceived | ScreenSharing_Desktop/ScreenSharing_Desktop/CoreClasses/Main.cs:266-299 | null is ignored; short or unparsable messages throw with no change; otherwise the estimate advances by local time since the previous frame, ping, image and window update as specified |
| ScreenSharing.Main.AcceptFrame | ScreenSharing_Desktop/ScreenSharing_Desktop/CoreClasses/Main.cs:275-293 | estimator, image bytes (the message after its 16-byte stamp) and window updated for a well-formed message |
| ScreenSharing.Main.AdvanceEstimate | ScreenSharing_Desktop/ScreenSharing_Desktop/CoreClasses/Main.cs:275-281 | `PublisherTimeBase` grows by exactly the local time since the previous frame, that time is recorded, and the ping takes `NextPing` of the sample |
| ScreenSharing.Main.CountReceived | ScreenSharing_Desktop/ScreenSharing_Desktop/CoreClasses/Main.cs:285-292 | the receiver window becomes `Aggregator.Receive` of the old one |
| ScreenSharing.Main.StopReceiving | ScreenSharing_Desktop/ScreenSharing_Desktop/CoreClasses/Main.cs:300-306 | with subscribers: both stopped and FPS and speed zero; without: throws and nothing changes |
| Scenarios.StopSharingTwice | ScreenSharing_Desktop/ScreenSharing_Desktop/CoreClasses/Main.cs:192-208 | a second stop keeps the loop disabled and the telemetry zero |
| Scenarios.StopReceivingTwice | ScreenSharing_Desktop/ScreenSharing_Desktop/CoreClasses/Main.cs:300-306 | a second stop has the same outcome as the first and keeps the telemetry zero |
| Scenarios.ResyncThenFrame | ScreenSharing_Desktop/ScreenSharing_Desktop/CoreClasses/Main.cs:257-278 | after a resync to T, the next frame's estimate is T plus the local time since the previous frame |

## Left out

- Threads and locks are not modelled. The per-field `lock` objects, the sender thread running beside the callbacks and the UI, and the race between registering the frame handler and creating `SubStopwatch` in `StartReceiving` are all left out. Each operation runs alone.
- `Thread.Abort` has no modelled effect: the loop is a method call that has already returned. The model assumes the .NET Framework behaviour, where aborting a started thread does not throw at the caller.
- ScreenSharing.Main.PublisherCoreFcn runs only the iterations given to it. `IsPublisherEnabled` is cleared only by `StopSharing` on another thread, so in a single-threaded run the loop reads it once. A run that outlives its steps ends as `StillRunning`.
- The `MQPublisher`/`MQSubscriber` transport, `ImageProcessing` (capture, `ImageFromByteArray`) and `Client.GetDeviceIP` are outside the model. Their effects are inputs and recorded outputs. `ScreenImage` holds the bytes the bitmap is decoded from. The model assumes the capturer's start and stop do not throw, and records a publish after `Stop` like any other.
- `TimeSpan` formatting, `TimeSpan.Parse` and the ASCII encoding are represented by supplied bytes and a parse parameter. `TimeSpan` arithmetic overflow is not modelled.
- Floating point: doubles are reals. `TotalMilliseconds` is ticks / 10000 exactly, and the `(int)` cast truncates toward zero without overflow.
- ScreenSharing.Main.CountReceived: does not model 32-bit wrap-around of `TotalBytesReceived` and `FpsCounter`. Integers are unbounded, and a window would need more than 2^31 bytes to wrap.
- ScreenSharing.Main.SendFrame: does not model 32-bit wrap-around of `totalBytesSent`, for the same reason.
- The stopwatch is read once per check, although the source reads `ElapsedMilliseconds` and then `Elapsed.TotalSeconds` a moment later. `ElapsedMilliseconds` uses Euclidean division, which differs from truncation only for negative elapsed times, and a stopwatch never reports those.
- ScreenSharing.Main.SubscriberOnDataReceived: requires a started receiver (`SubStopwatch` set). The transport calls the handler only once `StartReceiving` has registered it, and in a single-threaded run that happens after the stopwatch exists.
- ScreenSharing.Main.SubscriberOnDataReceived: assumes `ImageProcessing.ImageFromByteArray` (`Main.cs:284`) never throws. Its source is not part of this model. If it threw, the estimator fields would already be updated (`Main.cs:276-281`), while the image, the count, the window and `IsImageShowed` (`Main.cs:284-293`) would stay as they were. The model has no such partial outcome.
- ScreenSharing.Main.UpdateStats: requires a positive window time. In the source a zero time would give an infinite double, but both callers only call it after at least a second.
- Wire.CopyTo: requires distinct source and target arrays. In-place overlapping copies never occur in the core.
- `IsImageSent`, `IsControlsEnabled`, `MyIP` lookup, `Debug.WriteLine` logging and the WPF/WinForms front ends are left out: none of them is part of the streaming core.
