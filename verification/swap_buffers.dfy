/** The per-frame bookkeeping done on every `glXSwapBuffers`: a frame counter,
    a refresh every half second that recomputes the frame rate, rewrites one
    slot of the frame-statistics ring and asks for fresh system samples, and
    the process-wide statistics record those steps update. */
module FrameStats {
  import opened Common

  /** Microseconds that must have passed (strictly) before a refresh. */
  const RefreshInterval: nat := 500000

  /** The placeholder value written for every enabled metric on refresh. */
  const PlaceholderStat: int := 50

  /** 2^64: timestamps are `uint64_t` microseconds. */
  const U64: nat := 0x1_0000_0000_0000_0000

  /** `now - last_fps_update` computed on `uint64_t`, so it wraps when `now`
      is behind. Converting it to `double` before comparing with 500000 does
      not change the outcome of the comparison. */
  function Elapsed(now: nat, last: nat): (e: nat)
    requires now < U64 && last < U64
    ensures e < U64
    ensures last <= now ==> e == now - last
    ensures now < last ==> e == now + U64 - last
  {
    (now - last) % U64
  }

  /** A timestamp behind the last refresh (by less than 2^64 - 500000 µs)
      reads as a very long elapsed time, so it triggers a refresh. */
  lemma BackwardClockRefreshes(now: nat, last: nat)
    requires now < last < U64
    requires last - now < U64 - RefreshInterval
    ensures Elapsed(now, last) > RefreshInterval
  {
  }

  /** Frames per second over a window: `1000000 * frames / elapsed`, taken
      over the reals (the source computes it in floating point). */
  function Fps(frames: nat, elapsed: nat): (fps: real)
    requires elapsed > 0
    ensures fps * elapsed as real == 1000000.0 * frames as real
    ensures fps >= 0.0
  {
    1000000.0 * frames as real / elapsed as real
  }

  /** A swap one second after the last refresh, with 60 frames counted,
      passes the strict 500000 µs test and reads as 60 frames per second. */
  lemma FpsOneSecondWindow(last: nat)
    requires last + 1000000 < U64
    ensures Elapsed(last + 1000000, last) > RefreshInterval
    ensures Fps(60, Elapsed(last + 1000000, last)) == 60.0
  {
  }

  /** The background work a refresh asks for. The CPU sample is taken on the
      render thread; the others are threads the render path does not wait on. */
  datatype Sampler = AmdGpu | NvidiaGpu | Cpu | Memory | Io

  /** `needle` occurs in `hay` at position `i`. */
  predicate MatchAt(hay: string, needle: string, i: nat)
  {
    i + |needle| <= |hay| && hay[i..i + |needle|] == needle
  }

  lemma MatchAtShift(hay: string, needle: string, i: nat)
    requires hay != []
    ensures MatchAt(hay, needle, i + 1) <==> MatchAt(hay[1..], needle, i)
  {
    if i + 1 + |needle| <= |hay| {
      assert hay[i + 1..i + 1 + |needle|] == hay[1..][i..i + |needle|];
    }
  }

  /** `std::string::find`: the first position at which `needle` occurs in
      `hay`, if any. */
  function Find(hay: string, needle: string): (k: Option<nat>)
    ensures k.Some? ==> MatchAt(hay, needle, k.value)
    ensures k.Some? ==> forall i: nat :: i < k.value ==> !MatchAt(hay, needle, i)
    ensures k.None? ==> forall i: nat :: !MatchAt(hay, needle, i)
    decreases |hay|
  {
    if |hay| < |needle| then None
    else if hay[..|needle|] == needle then Some(0)
    else
      var rest := Find(hay[1..], needle);
      assert !MatchAt(hay, needle, 0);
      assert forall i: nat :: MatchAt(hay, needle, i + 1) <==> MatchAt(hay[1..], needle, i) by {
        forall i: nat ensures MatchAt(hay, needle, i + 1) <==> MatchAt(hay[1..], needle, i) {
          MatchAtShift(hay, needle, i);
        }
      }
      match rest
      case None =>
        assert forall i: nat :: !MatchAt(hay, needle, i) by {
          forall i: nat ensures !MatchAt(hay, needle, i) {
            if i > 0 { assert !MatchAt(hay[1..], needle, i - 1); }
          }
        }
        None
      case Some(k) =>
        assert forall i: nat :: i < k + 1 ==> !MatchAt(hay, needle, i) by {
          forall i: nat | i < k + 1 ensures !MatchAt(hay, needle, i) {
            if i > 0 { assert !MatchAt(hay[1..], needle, i - 1); }
          }
        }
        Some(k + 1)
  }

  /** `needle` occurs somewhere in `hay`. */
  ghost predicate Contains(hay: string, needle: string)
  {
    exists i: nat :: MatchAt(hay, needle, i)
  }

  /** `find` answers a position exactly when the needle occurs. */
  lemma FindIffContains(hay: string, needle: string)
    ensures Find(hay, needle).Some? <==> Contains(hay, needle)
  {
    var k := Find(hay, needle);
    if k.Some? {
      assert MatchAt(hay, needle, k.value);
    }
  }

  /** The GPU sampler chosen from the renderer string: the AMD one when it
      mentions "Radeon" or "AMD", the NVIDIA one otherwise. */
  function GpuSampler(renderer: string): (s: Sampler)
    ensures s == AmdGpu <==> Contains(renderer, "Radeon") || Contains(renderer, "AMD")
    ensures s == NvidiaGpu <==> !Contains(renderer, "Radeon") && !Contains(renderer, "AMD")
  {
    FindIffContains(renderer, "Radeon");
    FindIffContains(renderer, "AMD");
    if Find(renderer, "Radeon").Some? || Find(renderer, "AMD").Some? then AmdGpu else NvidiaGpu
  }

  /** The work one refresh asks for, in order: the GPU sampler if GPU stats
      are enabled, then the CPU update, the memory and the IO samplers. */
  function RefreshWork(renderer: string, gpuStats: bool): (work: seq<Sampler>)
  {
    (if gpuStats then [GpuSampler(renderer)] else []) + [Cpu, Memory, Io]
  }

  /** How many times `s` occurs in `work`. */
  function Count(work: seq<Sampler>, s: Sampler): (n: nat)
  {
    if work == [] then 0 else Count(work[..|work| - 1], s) + (if work[|work| - 1] == s then 1 else 0)
  }

  lemma {:induction false} CountAppend(a: seq<Sampler>, b: seq<Sampler>, s: Sampler)
    ensures Count(a + b, s) == Count(a, s) + Count(b, s)
    decreases |b|
  {
    if b == [] {
      assert a + b == a;
    } else {
      assert (a + b)[..|a + b| - 1] == a + b[..|b| - 1];
      CountAppend(a, b[..|b| - 1], s);
    }
  }

  /** The work asked for over `n` refreshes with the same settings. */
  function Refreshes(n: nat, renderer: string, gpuStats: bool): (work: seq<Sampler>)
  {
    if n == 0 then [] else Refreshes(n - 1, renderer, gpuStats) + RefreshWork(renderer, gpuStats)
  }

  /** How many times one refresh asks for `s`. */
  function PerRefresh(renderer: string, gpuStats: bool, s: Sampler): (times: nat)
  {
    (if s == Cpu || s == Memory || s == Io then 1 else 0)
    + (if gpuStats && s == GpuSampler(renderer) then 1 else 0)
  }

  lemma FixedWorkCount(s: Sampler)
    ensures Count([Cpu, Memory, Io], s) == if s == Cpu || s == Memory || s == Io then 1 else 0
  {
    var tail: seq<Sampler> := [Cpu, Memory, Io];
    assert tail[..2] == [Cpu, Memory] && tail[..2][..1] == [Cpu] && [Cpu][..0] == [];
  }

  lemma RefreshWorkCount(renderer: string, gpuStats: bool, s: Sampler)
    ensures Count(RefreshWork(renderer, gpuStats), s) == PerRefresh(renderer, gpuStats, s)
  {
    var tail: seq<Sampler> := [Cpu, Memory, Io];
    FixedWorkCount(s);
    if gpuStats {
      var g: seq<Sampler> := [GpuSampler(renderer)];
      assert RefreshWork(renderer, gpuStats) == g + tail;
      CountAppend(g, tail, s);
      assert g[..0] == [];
    } else {
      assert RefreshWork(renderer, gpuStats) == tail;
    }
  }

  lemma {:induction false} RefreshesCountOf(n: nat, renderer: string, gpuStats: bool, s: Sampler)
    ensures Count(Refreshes(n, renderer, gpuStats), s) == n * PerRefresh(renderer, gpuStats, s)
  {
    if n > 0 {
      RefreshesCountOf(n - 1, renderer, gpuStats, s);
      CountAppend(Refreshes(n - 1, renderer, gpuStats), RefreshWork(renderer, gpuStats), s);
      RefreshWorkCount(renderer, gpuStats, s);
    }
  }

  /** Over `n` refreshes the CPU, memory and IO samplers are each asked for
      exactly `n` times, and a GPU sampler `n` times with GPU stats enabled
      and never without. */
  lemma RefreshesCount(n: nat, renderer: string, gpuStats: bool)
    ensures Count(Refreshes(n, renderer, gpuStats), Cpu) == n
    ensures Count(Refreshes(n, renderer, gpuStats), Memory) == n
    ensures Count(Refreshes(n, renderer, gpuStats), Io) == n
    ensures Count(Refreshes(n, renderer, gpuStats), GpuSampler(renderer)) == if gpuStats then n else 0
    ensures !gpuStats ==> Count(Refreshes(n, renderer, gpuStats), AmdGpu) == 0
    ensures !gpuStats ==> Count(Refreshes(n, renderer, gpuStats), NvidiaGpu) == 0
  {
    RefreshesCountOf(n, renderer, gpuStats, Cpu);
    RefreshesCountOf(n, renderer, gpuStats, Memory);
    RefreshesCountOf(n, renderer, gpuStats, Io);
    RefreshesCountOf(n, renderer, gpuStats, GpuSampler(renderer));
    RefreshesCountOf(n, renderer, gpuStats, AmdGpu);
    RefreshesCountOf(n, renderer, gpuStats, NvidiaGpu);
  }

  /** `sw_stats` (a `swapchain_stats`) together with `last_fps_update`: the state the presentation
      hook keeps from frame to frame. */
  class SwapchainStats {
    var nFrames: nat            // frames since the last refresh
    var fps: real
    var font1: Pointer          // the current overlay's half-size font
    var lastFpsUpdate: nat      // last_fps_update, µs
    var samplers: seq<Sampler>  // background work asked for, oldest first
    const frames: array2<int>   // frames_stats[capacity].stats[width]
    const enabledMax: nat       // OVERLAY_PARAM_ENABLED_MAX

    ghost predicate Valid()
      reads this
    {
      0 < frames.Length0 && 0 < enabledMax <= frames.Length1 && lastFpsUpdate < U64
    }

    /** The zero-initialised static record. */
    constructor (capacity: nat, width: nat, enabledMax: nat)
      requires 0 < capacity && 0 < enabledMax <= width
      ensures Valid() && fresh(frames)
      ensures frames.Length0 == capacity && frames.Length1 == width && this.enabledMax == enabledMax
      ensures nFrames == 0 && fps == 0.0 && font1 == Null && lastFpsUpdate == 0 && samplers == []
      ensures forall i, s :: 0 <= i < capacity && 0 <= s < width ==> frames[i, s] == 0
    {
      frames := new int[capacity, width]((i, s) => 0);
      this.enabledMax := enabledMax;
      nFrames, fps, font1, lastFpsUpdate, samplers := 0, 0.0, Null, 0, [];
    }

    /** The bookkeeping of `glXSwapBuffers` at time `now`. When more than
        500000 µs have passed since the last refresh, the slot
        `nFrames % capacity` is zeroed and its first `enabledMax` entries set
        to 50, no other slot changes, the frame rate is recomputed, the
        refresh work is asked for and the window restarts with this frame as
        its first. Otherwise only the frame counter moves, by one. */
    method SwapBuffers(now: nat, renderer: string, gpuStats: bool)
      requires Valid() && now < U64
      modifies this, frames
      ensures Valid()
      ensures font1 == old(font1)
      ensures Elapsed(now, old(lastFpsUpdate)) > RefreshInterval ==>
        && nFrames == 1
        && lastFpsUpdate == now
        && fps == Fps(old(nFrames), Elapsed(now, old(lastFpsUpdate)))
        && samplers == old(samplers) + RefreshWork(renderer, gpuStats)
        && (forall s :: 0 <= s < frames.Length1 ==>
              frames[old(nFrames) % frames.Length0, s] == if s < enabledMax then PlaceholderStat else 0)
        && (forall i, s :: 0 <= i < frames.Length0 && i != old(nFrames) % frames.Length0 && 0 <= s < frames.Length1 ==>
              frames[i, s] == old(frames[i, s]))
      ensures Elapsed(now, old(lastFpsUpdate)) <= RefreshInterval ==>
        && nFrames == old(nFrames) + 1
        && lastFpsUpdate == old(lastFpsUpdate) && fps == old(fps) && samplers == old(samplers)
        && unchanged(frames)
    {
      var elapsed := Elapsed(now, lastFpsUpdate);
      if elapsed > RefreshInterval {
        var fIdx := nFrames % frames.Length0;
        fps := Fps(nFrames, elapsed);
        forall s | 0 <= s < frames.Length1 {
          frames[fIdx, s] := 0;
        }
        var s := 0;
        while s < enabledMax
          modifies frames
          invariant 0 <= s <= enabledMax
          invariant forall t :: 0 <= t < frames.Length1 ==> frames[fIdx, t] == if t < s then PlaceholderStat else 0
          invariant forall i, t :: 0 <= i < frames.Length0 && i != fIdx && 0 <= t < frames.Length1 ==>
            frames[i, t] == old(frames[i, t])
        {
          frames[fIdx, s] := PlaceholderStat;
          s := s + 1;
        }
        if gpuStats {
          samplers := samplers + [GpuSampler(renderer)];
        }
        samplers := samplers + [Cpu, Memory, Io];
        nFrames := 0;
        lastFpsUpdate := now;
      }
      nFrames := nFrames + 1;
    }
  }
}
