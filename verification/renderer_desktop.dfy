/** The desktop renderer loop's clock bookkeeping (Renderer_desktop.cpp):
    starting, stopping, drawing and terminating. Times are integer ticks
    read from the clock, which is an input; the window, GL and the user's
    loop callbacks are outside the model. */
module RendererDesktop {
  import opened Renderer

  /** `runRenderer()` before its loop: running, with the start time moved
      so that the time elapsed resumes where `stopRenderer` left it. */
  function Start(s: State, now: int): (s': State)
    ensures s'.running
    ensures now - s'.initialTime == s.stopTime
    ensures s'.(running := s.running, initialTime := s.initialTime) == s
  {
    s.(running := true, initialTime := s.initialTime + ((now - s.initialTime) - s.stopTime))
  }

  /** `stopRenderer()`: records the time elapsed so far and stops. */
  function Stop(s: State, now: int): (s': State)
    ensures !s'.running
    ensures s'.stopTime == now - s.initialTime
    ensures s'.(running := s.running, stopTime := s.stopTime) == s
  {
    s.(stopTime := now - s.initialTime, running := false)
  }

  /** The arguments of one call of the loop function. */
  datatype LoopCall = LoopCall(deltaTime: int, elapsedTime: int)

  /** `draw()`: calls the loop function with the time since the previous
      frame and the time since the start, then remembers the latter. */
  function Draw(s: State, now: int): (r: (LoopCall, State))
    ensures r.0.elapsedTime == now - s.initialTime
    ensures r.0.deltaTime == r.0.elapsedTime - s.elapsedTime
    ensures r.1 == s.(elapsedTime := r.0.elapsedTime)
  {
    var current := now - s.initialTime;
    (LoopCall(current - s.elapsedTime, current), s.(elapsedTime := current))
  }

  /** The frames of the loop, one clock reading each, in order. */
  function DrawAll(s: State, frames: seq<int>): (r: (seq<LoopCall>, State))
    ensures |r.0| == |frames|
    ensures r.1.(elapsedTime := s.elapsedTime) == s
    decreases |frames|
  {
    if |frames| == 0 then ([], s)
    else
      var first := Draw(s, frames[0]);
      var rest := DrawAll(first.1, frames[1..]);
      ([first.0] + rest.0, rest.1)
  }

  function SumDeltas(calls: seq<LoopCall>): int
    decreases |calls|
  {
    if |calls| == 0 then 0 else calls[0].deltaTime + SumDeltas(calls[1..])
  }

  /** The frame times handed to the loop add up to the time elapsed over
      the frames: no tick is lost or counted twice, and the loop ends with
      `elapsedTime` at the last frame's elapsed time. */
  lemma {:induction false} DeltasTelescope(s: State, frames: seq<int>)
    requires |frames| > 0
    ensures var r := DrawAll(s, frames);
      && SumDeltas(r.0) == (frames[|frames| - 1] - s.initialTime) - s.elapsedTime
      && r.1.elapsedTime == frames[|frames| - 1] - s.initialTime
    decreases |frames|
  {
    var first := Draw(s, frames[0]);
    if |frames| > 1 {
      DeltasTelescope(first.1, frames[1..]);
      assert frames[1..][|frames[1..]| - 1] == frames[|frames| - 1];
    }
  }

  /** A pause is not counted: after stopping at `t1` and starting again at
      `t2`, a frame at `t3` sees the time elapsed before the stop plus the
      time since the restart. */
  lemma PauseExcluded(s: State, t1: int, t2: int, t3: int)
    ensures var resumed := Start(Stop(s, t1), t2);
      Draw(resumed, t3).0.elapsedTime == (t1 - s.initialTime) + (t3 - t2)
  {
  }

  /** `terminateRenderer()`: stops, forgets the initialisation and resets
      everything. */
  function Terminate(s: State): (s': State)
    ensures !s'.running && !s'.initialized
    ensures s'.stopTime == 0 && s'.initialTime == 0 && s'.elapsedTime == 0
    ensures forall k, n :: Registry.BankGet(s'.bank, k, n) == Common.Null
  {
    Reset(s.(running := false, initialized := false))
  }

  /** Why the loop of `runRenderer` ended: a callback called
      `stopRenderer` at the given clock reading, or the window closed. */
  datatype LoopExit = StoppedAt(now: int) | WindowClosed

  /** `runRenderer()`: starts, draws the frames, and terminates when the
      loop ended because the window closed. */
  function Run(s: State, now: int, frames: seq<int>, exit: LoopExit): (r: (seq<LoopCall>, State))
    ensures |r.0| == |frames|
    ensures !r.1.running
    ensures exit.WindowClosed? ==> !r.1.initialized && r.1.elapsedTime == 0
    ensures exit.StoppedAt? ==> r.1.initialized == s.initialized && r.1.stopTime == exit.now - (now - s.stopTime)
  {
    var drawn := DrawAll(Start(s, now), frames);
    match exit
    case StoppedAt(t) => (drawn.0, Stop(drawn.1, t))
    case WindowClosed => (drawn.0, Terminate(drawn.1))
  }
}
