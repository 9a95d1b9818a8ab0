// The SDL OpenGL glue (neo/renderer/OpenGL/OpenGL.cpp): the pixel-format
// fallback schedule GLimp_Init walks through until SDL creates a context,
// the swap interval GLimp_SwapBuffers passes to SDL, and GLimp_Shutdown.
//
// Whether SDL_GL_CreateContext succeeds is outside the model: GLimp_Init
// takes it as one outcome per attempt. The SDL attribute calls of an
// attempt are recorded as one GLRequest.
module OpenGLImp {
  import opened Wrappers

  const ATTEMPTS: int := 16

  /** Colour, depth and stencil bits of a pixel format. */
  datatype PixelFormat = PixelFormat(color: int, depth: int, stencil: int)

  /** colorbits, depthbits and stencilbits before the first attempt. */
  const INITIAL_FORMAT: PixelFormat := PixelFormat(24, 24, 8)

  /** One step down for depth or for the base stencil: 24 to 16, 16 to 8, anything else kept. */
  function StepDown(bits: int): int {
    if bits == 24 then 16 else if bits == 16 then 8 else bits
  }

  /** The colour reduction: 24 to 16, anything else kept. */
  function ColorDown(bits: int): int {
    if bits == 24 then 16 else bits
  }

  /** The stencil reduction of an attempt: 24 to 16, 16 to 8, anything else to 0. */
  function StencilDown(bits: int): int {
    if bits == 24 then 16 else if bits == 16 then 8 else 0
  }

  /**
   * The base update at the top of attempt i: every fourth attempt after the
   * first enters the switch on i / 4. Case 1 (depth) has no break and falls
   * into case 3 (stencil); case 2 lowers the colour.
   */
  function Reduce(b: PixelFormat, i: int): PixelFormat {
    if i % 4 == 0 && i != 0 then
      if i / 4 == 2 then b.(color := ColorDown(b.color))
      else if i / 4 == 1 then b.(depth := StepDown(b.depth), stencil := StepDown(b.stencil))
      else if i / 4 == 3 then b.(stencil := StepDown(b.stencil))
      else b
    else b
  }

  /** The base values when attempt i begins, before its own update. */
  function BaseBefore(i: nat): PixelFormat {
    if i == 0 then INITIAL_FORMAT else Reduce(BaseBefore(i - 1), i - 1)
  }

  /** The base values attempt i works from. */
  function Base(i: nat): PixelFormat {
    Reduce(BaseBefore(i), i)
  }

  /** The variation of attempt i on its base: i % 4 is 0 (none), 1 (stencil), 2 (depth) or 3 (colour). */
  function Vary(b: PixelFormat, i: nat): PixelFormat {
    if i % 4 == 3 then b.(color := ColorDown(b.color))
    else if i % 4 == 2 then b.(depth := StepDown(b.depth))
    else if i % 4 == 1 then b.(stencil := StencilDown(b.stencil))
    else b
  }

  /** The pixel format attempt i asks for: tcolorbits, tdepthbits, tstencilbits. */
  function Schedule(i: nat): PixelFormat {
    Vary(Base(i), i)
  }

  /** The sixteen formats in attempt order. */
  const SCHEDULE_TABLE: seq<PixelFormat> := [
    PixelFormat(24, 24, 8), PixelFormat(24, 24, 0), PixelFormat(24, 16, 8), PixelFormat(16, 24, 8),
    PixelFormat(24, 16, 8), PixelFormat(24, 16, 0), PixelFormat(24, 8, 8), PixelFormat(16, 16, 8),
    PixelFormat(16, 16, 8), PixelFormat(16, 16, 0), PixelFormat(16, 8, 8), PixelFormat(16, 16, 8),
    PixelFormat(16, 16, 8), PixelFormat(16, 16, 0), PixelFormat(16, 8, 8), PixelFormat(16, 16, 8)]

  /**
   * The base stencil is 8 at every attempt: the stencil case reached by the
   * missing break at i = 4, and again at i = 12, finds neither 24 nor 16 and
   * changes nothing.
   */
  lemma {:induction false} BaseStencilIsEight(i: nat)
    ensures BaseBefore(i).stencil == 8 && Base(i).stencil == 8
  {
    if i > 0 {
      BaseStencilIsEight(i - 1);
    }
  }

  /** Bases by group of four: (24, 24) for attempts 0-3, depth 16 from 4, colour 16 from 8, unchanged at 12. */
  lemma {:induction false} BaseByGroup(i: nat)
    requires i < ATTEMPTS
    ensures Base(i) == (if i < 4 then INITIAL_FORMAT else if i < 8 then PixelFormat(24, 16, 8) else PixelFormat(16, 16, 8))
  {
    if i > 0 {
      BaseByGroup(i - 1);
      BaseStencilIsEight(i);
    }
  }

  /** GLimp_Init tries the sixteen formats of the table in order. */
  lemma ScheduleIsTable(i: nat)
    requires i < ATTEMPTS
    ensures Schedule(i) == SCHEDULE_TABLE[i]
  {
    BaseByGroup(i);
  }

  /** The last group of four repeats the third one attempt for attempt: the reduction at i = 12 has no effect. */
  lemma LastGroupRepeatsThird(i: nat)
    requires 8 <= i < 12
    ensures Schedule(i + 4) == Schedule(i)
  {
    ScheduleIsTable(i);
    ScheduleIsTable(i + 4);
  }

  /** No fallback asks for more than the first attempt, and every format keeps at least 8 depth bits. */
  lemma FallbacksNeverGrow(i: nat)
    requires i < ATTEMPTS
    ensures var f := Schedule(i);
      f.color in {16, 24} && 8 <= f.depth <= 24 && f.stencil in {0, 8}
  {
    ScheduleIsTable(i);
  }

  /** SDL's red, green, blue (and alpha) size: 8 bits a channel for 24-bit colour, 4 otherwise. */
  function ChannelBits(color: int): int {
    if color == 24 then 8 else 4
  }

  /** Only attempts 0-2 and 4-6 ask for 8-bit channels. */
  lemma EightBitChannels(i: nat)
    requires i < ATTEMPTS
    ensures ChannelBits(Schedule(i).color) == 8 <==> i in {0, 1, 2, 4, 5, 6}
  {
    ScheduleIsTable(i);
  }

  /** The SDL_GL_SetAttribute values of one attempt. */
  datatype GLRequest = GLRequest(red: int, green: int, blue: int, alpha: int, depth: int, stencil: int,
                                 doubleBuffer: int, stereo: int, multisampleBuffers: int, multisampleSamples: int)

  /** What attempt i sets; with r_waylandcompat the alpha size is 0. */
  function Request(i: nat, stereo: bool, multiSamples: int, waylandCompat: bool): (r: GLRequest)
    ensures r.red == r.green == r.blue == ChannelBits(Schedule(i).color)
    ensures r.depth == Schedule(i).depth && r.stencil == Schedule(i).stencil
    ensures r.alpha == (if waylandCompat then 0 else r.red)
  {
    var f := Schedule(i);
    var channel := ChannelBits(f.color);
    GLRequest(channel, channel, channel, if waylandCompat then 0 else channel, f.depth, f.stencil,
              1, if stereo then 1 else 0, if multiSamples != 0 then 1 else 0, multiSamples)
  }

  /** The requests of attempts 0 .. n-1. */
  function Requests(n: nat, stereo: bool, multiSamples: int, waylandCompat: bool): (rs: seq<GLRequest>)
    ensures |rs| == n && forall i :: 0 <= i < n ==> rs[i] == Request(i, stereo, multiSamples, waylandCompat)
  {
    seq(n, i requires 0 <= i => Request(i, stereo, multiSamples, waylandCompat))
  }

  lemma RequestsSnoc(n: nat, stereo: bool, multiSamples: int, waylandCompat: bool)
    ensures Requests(n + 1, stereo, multiSamples, waylandCompat)
         == Requests(n, stereo, multiSamples, waylandCompat) + [Request(n, stereo, multiSamples, waylandCompat)]
  {
  }

  /** Whether SDL creates a context at attempt i: the outcomes given, failure past their end. */
  function Created(outcomes: seq<bool>, i: nat): bool {
    i < |outcomes| && outcomes[i]
  }

  /** The first attempt from `from` on at which SDL creates a context. */
  function FirstCreated(outcomes: seq<bool>, from: nat): (r: Option<nat>)
    requires from <= ATTEMPTS
    ensures r.Some? ==> from <= r.value < ATTEMPTS && Created(outcomes, r.value)
    ensures forall j :: from <= j < ATTEMPTS && (r.None? || j < r.value) ==> !Created(outcomes, j)
    decreases ATTEMPTS - from
  {
    if from == ATTEMPTS then None
    else if Created(outcomes, from) then Some(from)
    else FirstCreated(outcomes, from + 1)
  }

  /** glConfig fields GLimp_Init writes, and the tear-control flag it reads. */
  datatype GLConfig = GLConfig(colorBits: int, depthBits: int, stencilBits: int, isStereoPixelFormat: bool,
                               multisamples: int, swapControlTearAvailable: bool)

  /** The file's `context` (window and GL context) with glConfig and the r_swapInterval cvar. */
  class GLImp {
    var hasContext: bool
    var destroyedContexts: nat
    var config: GLConfig
    var requests: seq<GLRequest>
    /** The last value passed to SDL_GL_SetSwapInterval. */
    var swapInterval: int
    var swapIntervalCvar: int
    var swapIntervalModified: bool
    var swappedFrames: nat

    constructor (config0: GLConfig, swapIntervalCvar0: int)
      ensures !hasContext && destroyedContexts == 0 && config == config0 && requests == []
      ensures swapInterval == 0 && swapIntervalCvar == swapIntervalCvar0 && !swapIntervalModified && swappedFrames == 0
    {
      hasContext := false;
      destroyedContexts := 0;
      config := config0;
      requests := [];
      swapInterval := 0;
      swapIntervalCvar := swapIntervalCvar0;
      swapIntervalModified := false;
      swappedFrames := 0;
    }

    /**
     * GLimp_Init: the attempts run in schedule order until SDL creates a
     * context; that attempt's bits go to glConfig and r_swapInterval is
     * passed to SDL as it is. With no context after sixteen attempts it
     * returns false and glConfig keeps its values.
     */
    method Init(stereo: bool, multiSamples: int, waylandCompat: bool, outcomes: seq<bool>) returns (ok: bool)
      requires 0 <= multiSamples < 256
      modifies this
      ensures var first := FirstCreated(outcomes, 0);
        ok == first.Some? && hasContext == ok
        && requests == old(requests) + Requests(if ok then first.value + 1 else ATTEMPTS, stereo, multiSamples, waylandCompat)
        && (ok ==> config == old(config).(colorBits := Schedule(first.value).color, depthBits := Schedule(first.value).depth,
                                          stencilBits := Schedule(first.value).stencil,
                                          isStereoPixelFormat := stereo, multisamples := multiSamples)
                   && swapInterval == swapIntervalCvar)
        && (!ok ==> config == old(config) && swapInterval == old(swapInterval))
      ensures destroyedContexts == old(destroyedContexts) && swapIntervalCvar == old(swapIntervalCvar)
      ensures swapIntervalModified == old(swapIntervalModified) && swappedFrames == old(swappedFrames)
    {
      var created, format, tried := TryFormats(stereo, multiSamples, waylandCompat, outcomes);
      requests := requests + tried;
      hasContext := created;
      if created {
        swapInterval := swapIntervalCvar;
        config := config.(colorBits := format.color, depthBits := format.depth, stencilBits := format.stencil,
                          isStereoPixelFormat := stereo, multisamples := multiSamples);
      }
      ok := hasContext;
    }

    /**
     * The attempt loop of GLimp_Init: whether a context was created, the
     * format of the attempt that created it, and the attribute requests of
     * every attempt made.
     */
    static method TryFormats(stereo: bool, multiSamples: int, waylandCompat: bool, outcomes: seq<bool>)
      returns (created: bool, format: PixelFormat, tried: seq<GLRequest>)
      ensures var first := FirstCreated(outcomes, 0);
        created == first.Some? && (created ==> format == Schedule(first.value))
        && tried == Requests(if created then first.value + 1 else ATTEMPTS, stereo, multiSamples, waylandCompat)
    {
      var colorbits, depthbits, stencilbits := 24, 24, 8;
      created, format, tried := false, INITIAL_FORMAT, [];
      var i := 0;
      while i < ATTEMPTS
        invariant 0 <= i <= ATTEMPTS
        invariant PixelFormat(colorbits, depthbits, stencilbits) == BaseBefore(i)
        invariant FirstCreated(outcomes, 0) == FirstCreated(outcomes, i)
        invariant tried == Requests(i, stereo, multiSamples, waylandCompat)
      {
        colorbits, depthbits, stencilbits := ReduceBase(i, colorbits, depthbits, stencilbits);
        var tcolorbits, tdepthbits, tstencilbits := VaryBase(i, colorbits, depthbits, stencilbits);
        assert PixelFormat(tcolorbits, tdepthbits, tstencilbits) == Schedule(i);
        var request := AttemptRequest(i, tcolorbits, tdepthbits, tstencilbits, stereo, multiSamples, waylandCompat);
        tried := tried + [request];
        RequestsSnoc(i, stereo, multiSamples, waylandCompat);
        if !Created(outcomes, i) {
          i := i + 1;
          continue;
        }
        created := true;
        format := PixelFormat(tcolorbits, tdepthbits, tstencilbits);
        break;
      }
    }

    /** The SDL_GL_SetAttribute calls of attempt i, made from its pixel format. */
    static method AttemptRequest(i: nat, tcolorbits: int, tdepthbits: int, tstencilbits: int, stereo: bool,
                                 multiSamples: int, waylandCompat: bool) returns (r: GLRequest)
      requires PixelFormat(tcolorbits, tdepthbits, tstencilbits) == Schedule(i)
      ensures r == Request(i, stereo, multiSamples, waylandCompat)
    {
      var channelcolorbits := 4;
      if tcolorbits == 24 {
        channelcolorbits := 8;
      }
      var alpha := if waylandCompat then 0 else channelcolorbits;
      r := GLRequest(channelcolorbits, channelcolorbits, channelcolorbits, alpha, tdepthbits, tstencilbits,
                     1, if stereo then 1 else 0, if multiSamples != 0 then 1 else 0, multiSamples);
    }

    /** The switch at the top of an attempt: one pass in four lowers the base values. */
    static method ReduceBase(i: nat, colorbits0: int, depthbits0: int, stencilbits0: int)
      returns (colorbits: int, depthbits: int, stencilbits: int)
      ensures PixelFormat(colorbits, depthbits, stencilbits) == Reduce(PixelFormat(colorbits0, depthbits0, stencilbits0), i)
    {
      colorbits, depthbits, stencilbits := colorbits0, depthbits0, stencilbits0;
      if i % 4 == 0 && i != 0 {
        if i / 4 == 2 {
          if colorbits == 24 {
            colorbits := 16;
          }
        } else if i / 4 == 1 {
          if depthbits == 24 {
            depthbits := 16;
          } else if depthbits == 16 {
            depthbits := 8;
          }
          // no break: the stencil case runs too
          if stencilbits == 24 {
            stencilbits := 16;
          } else if stencilbits == 16 {
            stencilbits := 8;
          }
        } else if i / 4 == 3 {
          if stencilbits == 24 {
            stencilbits := 16;
          } else if stencilbits == 16 {
            stencilbits := 8;
          }
        }
      }
    }

    /** The attempt's own variation on the base values: tcolorbits, tdepthbits, tstencilbits. */
    static method VaryBase(i: nat, colorbits: int, depthbits: int, stencilbits: int)
      returns (tcolorbits: int, tdepthbits: int, tstencilbits: int)
      ensures PixelFormat(tcolorbits, tdepthbits, tstencilbits) == Vary(PixelFormat(colorbits, depthbits, stencilbits), i)
    {
      tcolorbits, tdepthbits, tstencilbits := colorbits, depthbits, stencilbits;
      if i % 4 == 3 {
        if tcolorbits == 24 {
          tcolorbits := 16;
        }
      }
      if i % 4 == 2 {
        if tdepthbits == 24 {
          tdepthbits := 16;
        } else if tdepthbits == 16 {
          tdepthbits := 8;
        }
      }
      if i % 4 == 1 {
        if tstencilbits == 24 {
          tstencilbits := 16;
        } else if tstencilbits == 16 {
          tstencilbits := 8;
        } else {
          tstencilbits := 0;
        }
      }
    }

    /**
     * GLimp_SwapBuffers: a changed r_swapInterval is taken once (the flag is
     * cleared) and mapped by SwapIntervalFor; then the frame is shown.
     */
    method SwapBuffers()
      modifies this
      ensures swapInterval == (if old(swapIntervalModified) then SwapIntervalFor(swapIntervalCvar, config.swapControlTearAvailable)
                               else old(swapInterval))
      ensures !swapIntervalModified && swappedFrames == old(swappedFrames) + 1
      ensures hasContext == old(hasContext) && destroyedContexts == old(destroyedContexts) && config == old(config)
      ensures requests == old(requests) && swapIntervalCvar == old(swapIntervalCvar)
    {
      if swapIntervalModified {
        swapIntervalModified := false;
        var interval := 0;
        if swapIntervalCvar == 1 {
          interval := if config.swapControlTearAvailable then -1 else 1;
        } else if swapIntervalCvar == 2 {
          interval := 1;
        }
        swapInterval := interval;
      }
      swappedFrames := swappedFrames + 1;
    }

    /** GLimp_Shutdown: destroys the context if there is one; without one it does nothing, so a second call is a no-op. */
    method Shutdown()
      modifies this
      ensures !hasContext && destroyedContexts == old(destroyedContexts) + (if old(hasContext) then 1 else 0)
      ensures config == old(config) && requests == old(requests) && swapInterval == old(swapInterval)
      ensures swapIntervalCvar == old(swapIntervalCvar) && swapIntervalModified == old(swapIntervalModified)
      ensures swappedFrames == old(swappedFrames)
    {
      if !hasContext {
        return;
      }
      destroyedContexts := destroyedContexts + 1;
      hasContext := false;
    }
  }

  /**
   * The interval for r_swapInterval: 1 is adaptive vsync (-1) where tear
   * control is available and vsync (1) otherwise, 2 is vsync, anything else
   * is off.
   */
  function SwapIntervalFor(cvar: int, tearAvailable: bool): (interval: int)
    ensures interval in {-1, 0, 1}
    ensures interval == -1 <==> cvar == 1 && tearAvailable
    ensures interval == 1 <==> (cvar == 1 && !tearAvailable) || cvar == 2
  {
    if cvar == 1 then (if tearAvailable then -1 else 1)
    else if cvar == 2 then 1
    else 0
  }
}
