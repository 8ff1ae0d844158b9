/**
 * The sender's loop as a function of what its collaborators return.  Each
 * iteration asks the capturer for a frame; a frame is stamped with the time
 * of day, published on the screen channel and counted into the window; when
 * more than a second has elapsed the statistics are updated and a bare
 * time-of-day message is published on the time-base channel.  A missing frame
 * ends the loop.
 */
module PublisherLoop {
  import opened Wrappers
  import opened Wire
  import opened Aggregator

  /**
   * What one iteration observes: the capturer's result (`None` for null),
   * the ASCII time-of-day text for the frame, the stopwatch clock, and the
   * time-of-day text that a time-base message would carry.
   */
  datatype SendStep = SendStep(capture: Option<Bytes>, stamp: Bytes, clock: int, timeBaseStamp: Bytes)

  /** The loop's state: the window (statistics, bytes sent, stopwatch start) and both channels' output. */
  datatype LoopState = LoopState(window: Window, published: seq<Bytes>, timeBasePublished: seq<Bytes>)

  /** The sender closes its window only once strictly more than a second has elapsed. */
  predicate SenderWindowCloses(w: Window, clock: int)
  {
    ElapsedMilliseconds(w.start, clock) > WindowMilliseconds
  }

  /** One iteration with a captured frame. */
  function Send(s: LoopState, st: SendStep): (r: LoopState)
    requires st.capture.Some?
    ensures r.published == s.published + [Encode(st.stamp, st.capture.value)]
    ensures SenderWindowCloses(s.window, st.clock) ==>
      r.timeBasePublished == s.timeBasePublished + [st.timeBaseStamp] &&
      r.window.bytes == 0 && r.window.stats.fpsCounter == 0 && r.window.start == st.clock
    ensures SenderWindowCloses(s.window, st.clock) ==>
      ElapsedSeconds(s.window.start, st.clock) >= 1.0 &&
      r.window.stats == UpdateStats(s.window.stats.(fpsCounter := s.window.stats.fpsCounter + 1),
                                    s.window.bytes + |st.stamp| + |st.capture.value|,
                                    ElapsedSeconds(s.window.start, st.clock))
    ensures !SenderWindowCloses(s.window, st.clock) ==>
      r.timeBasePublished == s.timeBasePublished &&
      r.window == Tally(s.window, |st.stamp| + |st.capture.value|)
  {
    var data := Encode(st.stamp, st.capture.value);
    var counted := Tally(s.window, |data|);
    if SenderWindowCloses(s.window, st.clock) then
      FullWindowLastsASecond(s.window.start, st.clock);
      LoopState(Roll(counted, st.clock), s.published + [data], s.timeBasePublished + [st.timeBaseStamp])
    else
      LoopState(counted, s.published + [data], s.timeBasePublished)
  }

  /** The end state of a run and the number of frames sent before it stopped or the steps ran out. */
  datatype SenderRun = SenderRun(last: LoopState, sent: nat)

  function RunSender(s: LoopState, steps: seq<SendStep>): (r: SenderRun)
    ensures r.sent <= |steps|
    decreases |steps|
  {
    if steps == [] || steps[0].capture.None? then SenderRun(s, 0)
    else
      var rest := RunSender(Send(s, steps[0]), steps[1..]);
      SenderRun(rest.last, rest.sent + 1)
  }

  /**
   * Every captured frame is published exactly once, as its stamp followed by
   * its bytes and in capture order; the loop stops at the first missing
   * frame and publishes nothing after it.
   */
  lemma {:induction false} PublishesEachCapture(s: LoopState, steps: seq<SendStep>)
    ensures var r := RunSender(s, steps);
      && (forall i :: 0 <= i < r.sent ==> steps[i].capture.Some?)
      && (r.sent < |steps| ==> steps[r.sent].capture.None?)
      && |r.last.published| == |s.published| + r.sent
      && r.last.published[..|s.published|] == s.published
      && (forall i :: 0 <= i < r.sent ==>
            r.last.published[|s.published| + i] == Encode(steps[i].stamp, steps[i].capture.value))
    decreases |steps|
  {
    if steps != [] && steps[0].capture.Some? {
      var next := Send(s, steps[0]);
      PublishesEachCapture(next, steps[1..]);
      var r := RunSender(s, steps);
      var rest := RunSender(next, steps[1..]);
      assert r.last == rest.last && r.sent == rest.sent + 1;
      assert rest.last.published[..|next.published|] == next.published;
      assert r.last.published[..|s.published|] == s.published by {
        assert next.published[..|s.published|] == s.published;
      }
      forall i | 0 <= i < r.sent
        ensures steps[i].capture.Some?
        ensures r.last.published[|s.published| + i] == Encode(steps[i].stamp, steps[i].capture.value)
      {
        if i > 0 {
          assert steps[1..][i - 1] == steps[i];
        } else {
          assert next.published[|s.published|] == Encode(steps[0].stamp, steps[0].capture.value);
        }
      }
      if r.sent < |steps| {
        assert steps[1..][rest.sent] == steps[r.sent];
      }
    }
  }

  /**
   * The time-base channel gets at most one message per frame sent, and every
   * one of them is the time-base text of one of the iterations that ran.
   */
  lemma {:induction false} TimeBaseOnlyFromSentFrames(s: LoopState, steps: seq<SendStep>)
    ensures var r := RunSender(s, steps);
      && |s.timeBasePublished| <= |r.last.timeBasePublished| <= |s.timeBasePublished| + r.sent
      && r.last.timeBasePublished[..|s.timeBasePublished|] == s.timeBasePublished
      && (forall k :: |s.timeBasePublished| <= k < |r.last.timeBasePublished| ==>
            exists i :: 0 <= i < r.sent && r.last.timeBasePublished[k] == steps[i].timeBaseStamp)
    decreases |steps|
  {
    if steps != [] && steps[0].capture.Some? {
      var next := Send(s, steps[0]);
      TimeBaseOnlyFromSentFrames(next, steps[1..]);
      var r := RunSender(s, steps);
      var rest := RunSender(next, steps[1..]);
      var n0, n1 := |s.timeBasePublished|, |next.timeBasePublished|;
      assert r.last == rest.last && r.sent == rest.sent + 1;
      assert next.timeBasePublished[..n0] == s.timeBasePublished;
      assert r.last.timeBasePublished[..n0] == s.timeBasePublished by {
        assert r.last.timeBasePublished[..n1][..n0] == r.last.timeBasePublished[..n0];
      }
      forall k | n0 <= k < |r.last.timeBasePublished|
        ensures exists i :: 0 <= i < r.sent && r.last.timeBasePublished[k] == steps[i].timeBaseStamp
      {
        if k < n1 {
          assert r.last.timeBasePublished[k] == next.timeBasePublished[k] == steps[0].timeBaseStamp;
        } else {
          var j :| 0 <= j < rest.sent && r.last.timeBasePublished[k] == steps[1..][j].timeBaseStamp;
          assert steps[1..][j] == steps[j + 1];
        }
      }
    }
  }

  function SumLengths(messages: seq<Bytes>): int
    decreases |messages|
  {
    if messages == [] then 0 else |messages[0]| + SumLengths(messages[1..])
  }

  /** No iteration finds more than a second elapsed. */
  predicate QuietSteps(w: Window, steps: seq<SendStep>)
  {
    forall i :: 0 <= i < |steps| ==> !SenderWindowCloses(w, steps[i].clock)
  }

  /**
   * While the window stays open, nothing goes to the time-base channel, the
   * byte count grows by the full length of every published message and the
   * frame counter by the number of frames; FPS and speed do not change.
   */
  lemma {:induction false} QuietSender(s: LoopState, steps: seq<SendStep>)
    requires QuietSteps(s.window, steps)
    ensures |RunSender(s, steps).last.published| >= |s.published|
    ensures var r := RunSender(s, steps);
      var sentNow := r.last.published[|s.published|..];
      && r.last.timeBasePublished == s.timeBasePublished
      && r.last.window.start == s.window.start
      && r.last.window.bytes == s.window.bytes + SumLengths(sentNow)
      && r.last.window.stats == s.window.stats.(fpsCounter := s.window.stats.fpsCounter + r.sent)
    decreases |steps|
  {
    var r := RunSender(s, steps);
    if steps == [] || steps[0].capture.None? {
      assert r.last.published[|s.published|..] == [];
    } else {
      var next := Send(s, steps[0]);
      assert QuietSteps(next.window, steps[1..]) by {
        forall i | 0 <= i < |steps[1..]|
          ensures !SenderWindowCloses(next.window, steps[1..][i].clock)
        {
          assert steps[1..][i] == steps[i + 1];
        }
      }
      QuietSender(next, steps[1..]);
      PublishesEachCapture(next, steps[1..]);
      var rest := RunSender(next, steps[1..]);
      var first := Encode(steps[0].stamp, steps[0].capture.value);
      var later := rest.last.published[|next.published|..];
      assert r.last == rest.last;
      assert rest.last.published[..|next.published|] == next.published;
      assert r.last.published[|s.published|..] == [first] + later by {
        assert r.last.published == next.published + later;
        assert next.published == s.published + [first];
      }
      assert ([first] + later)[1..] == later;
    }
  }
}
