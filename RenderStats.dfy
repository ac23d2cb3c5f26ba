// The frame counters the engine keeps for its statistics overlay. Game time is
// counted in TimeSpan ticks (100 ns); the stopwatch that times the GPU is not
// modelled and its reading is passed in.

module Statistics {

  /** TimeSpan.FromSeconds(0.5), in ticks. */
  const HalfSecond: int := 5_000_000

  /** TimeSpan.TicksPerMillisecond. */
  const TicksPerMillisecond: int := 10_000

  /** A single-precision result that may be the infinity a division by zero yields. */
  datatype FloatValue = Finite(value: real) | Infinity

  /** The frame rate computed from one frame's elapsed time: 1000 / milliseconds. */
  function RateOf(elapsedTicks: int): (r: FloatValue)
    requires elapsedTicks >= 0
    ensures r == Infinity <==> elapsedTicks == 0
    ensures r.Finite? ==> r.value * (elapsedTicks as real / TicksPerMillisecond as real) == 1000.0
  {
    if elapsedTicks == 0 then Infinity
    else Finite(1000.0 / (elapsedTicks as real / TicksPerMillisecond as real))
  }

  /** The half-second window carry: add the frame time, drop half a second once when past it. */
  function Carry(elapsed: int, frame: int): int {
    if elapsed + frame > HalfSecond then elapsed + frame - HalfSecond else elapsed + frame
  }

  /** A window that is at most half a second long stays so when a frame of at most half a second is added. */
  lemma CarryStaysInWindow(elapsed: int, frame: int)
    requires 0 <= elapsed <= HalfSecond && 0 <= frame <= HalfSecond
    ensures 0 <= Carry(elapsed, frame) <= HalfSecond
    ensures Carry(elapsed, frame) < elapsed + frame <==> elapsed + frame > HalfSecond
  {
  }

  /** A frame time the window cannot absorb leaves it past half a second again. */
  lemma CarryLongFrame(elapsed: int, frame: int)
    requires 0 <= elapsed && frame > 2 * HalfSecond
    ensures Carry(elapsed, frame) > HalfSecond
  {
  }

  class RenderStats {
    var frameCounter: real
    var frameRate: FloatValue
    var totalFrames: int
    var elapsedTime: int
    var frameStepTime: int
    var gpuTime: real

    /** Every counter starts at zero. */
    constructor ()
      ensures frameCounter == 0.0 && frameRate == Finite(0.0) && totalFrames == 0
      ensures elapsedTime == 0 && frameStepTime == 0 && gpuTime == 0.0
    {
      frameCounter := 0.0;
      frameRate := Finite(0.0);
      totalFrames := 0;
      elapsedTime := 0;
      frameStepTime := 0;
      gpuTime := 0.0;
    }

    /**
     * Reads the GPU stopwatch, adds the frame's elapsed time to the half-second
     * window and the total game time to the step time, and once the window is
     * past half a second shortens it by half a second, zeroes the frame counter
     * and recomputes the frame rate from this frame's elapsed time.
     */
    method Update(elapsedGameTime: int, totalGameTime: int, gpuReading: real)
      requires elapsedGameTime >= 0
      modifies this
      ensures gpuTime == gpuReading
      ensures elapsedTime == Carry(old(elapsedTime), elapsedGameTime)
      ensures frameStepTime == old(frameStepTime) + totalGameTime
      ensures old(elapsedTime) + elapsedGameTime > HalfSecond ==>
        frameCounter == 0.0 && frameRate == RateOf(elapsedGameTime)
      ensures old(elapsedTime) + elapsedGameTime <= HalfSecond ==>
        frameCounter == old(frameCounter) && frameRate == old(frameRate)
      ensures totalFrames == old(totalFrames)
    {
      gpuTime := gpuReading;
      elapsedTime := elapsedTime + elapsedGameTime;
      frameStepTime := frameStepTime + totalGameTime;
      if elapsedTime > HalfSecond {
        elapsedTime := elapsedTime - HalfSecond;
        frameCounter := 0.0;
        frameRate := RateOf(elapsedGameTime);
      }
    }

    /** Counts one more frame and restarts the GPU stopwatch. */
    method Finish()
      modifies this
      ensures frameCounter == old(frameCounter) + 1.0
      ensures totalFrames == old(totalFrames) + 1
      ensures totalFrames > old(totalFrames)
      ensures elapsedTime == old(elapsedTime) && frameStepTime == old(frameStepTime)
      ensures frameRate == old(frameRate) && gpuTime == old(gpuTime)
    {
      frameCounter := frameCounter + 1.0;
      totalFrames := totalFrames + 1;
    }
  }
}
