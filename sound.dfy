// The SDL3 sound back end (neo/sound/SDL/): the voice objects with their
// play/pause flags (SDLSoundVoice.cpp) and the hardware's pool of 96 voices
// handed out from a free list and returned to it (SDLSoundHardware.cpp).
//
// SDL streams and devices are reduced to flags: whether a voice has a
// stream, whether that stream is bound to the device, whether the device is
// open. Sample data, mixing and gain are not modelled.
module SoundSDL {
  import opened Wrappers

  const MAX_HARDWARE_VOICES: int := 96
  const SIZE_T_MODULUS: int := 0x1_0000_0000_0000_0000

  /**
   * The fields of idSoundVoiceSDL3 but the floating-point m_volume and
   * m_pitch; hasBuffer stands for m_buffer != nullptr.
   */
  datatype VoiceState = VoiceState(looping: bool, playing: bool, paused: bool, channels: int, sampleRate: int,
                                   size: int, cursor: int, hasBuffer: bool,
                                   specChannels: int, specFreq: int, hasStream: bool, bound: bool)

  /**
   * A voice as its constructor leaves it. The constructor does not
   * initialise m_audioSpec; the model starts it at 0.
   */
  const FRESH_VOICE: VoiceState := VoiceState(false, false, false, 0, 0, 0, 0, false, 0, 0, false, false)

  /** IsPlaying: looping and playing, so a voice playing a sound once is not reported as playing. */
  function IsPlaying(v: VoiceState): (p: bool)
    ensures p ==> v.playing
    ensures v.playing && !v.looping ==> !p
  {
    v.looping && v.playing
  }

  /** CompatibleFormat: a voice with no buffer is compatible with every sample; a voice with one with none. */
  function CompatibleFormat(v: VoiceState): (c: bool)
    ensures c <==> !v.hasBuffer
  {
    !v.hasBuffer
  }

  /** Start: playing from the beginning, not paused. */
  function Started(v: VoiceState): VoiceState {
    v.(playing := true, paused := false, cursor := 0)
  }

  /** Stop: not playing, not paused, cursor back to 0, stream unbound from the device. */
  function Stopped(v: VoiceState): VoiceState {
    v.(playing := false, paused := false, cursor := 0, bound := false)
  }

  /** DestroyInternal: the buffer freed and every flag and count reset; the stream only has its data cleared. */
  function Destroyed(v: VoiceState): VoiceState {
    VoiceState(false, false, false, 0, 0, 0, 0, false, v.specChannels, v.specFreq, v.hasStream, v.bound)
  }

  /** Create: the stream spec from the lead-in sample; a playing voice is stopped instead of getting a stream. */
  function CreatedWith(v: VoiceState, numChannels: int, sampleRate: int): VoiceState {
    var v1 := v.(specChannels := numChannels, specFreq := sampleRate);
    if IsPlaying(v1) then Stopped(v1) else v1.(hasStream := true)
  }

  /** Pause and UnPause change the paused flag and nothing else. */
  lemma PauseRoundTrip(v: VoiceState)
    ensures v.(paused := true).(paused := false) == v.(paused := false)
    ensures v.(paused := true) == v.(paused := true).(paused := false).(paused := true)
  {
  }

  /** Stop forgets a Start, and stopping twice is stopping once. */
  lemma StopAfterStart(v: VoiceState)
    ensures Stopped(Started(v)) == Stopped(v) && Stopped(Stopped(v)) == Stopped(v)
    ensures !IsPlaying(Stopped(v)) && !Stopped(v).paused
  {
  }

  /** DestroyInternal leaves a voice that is idle and compatible with everything, and is idempotent. */
  lemma DestroyResets(v: VoiceState)
    ensures var d := Destroyed(v); !IsPlaying(d) && CompatibleFormat(d) && Destroyed(d) == d
  {
  }

  /** Create on a playing voice stops it and creates no stream. */
  lemma CreateWhilePlaying(v: VoiceState, numChannels: int, sampleRate: int)
    requires IsPlaying(v)
    ensures var c := CreatedWith(v, numChannels, sampleRate);
      !c.playing && c.hasStream == v.hasStream && !c.bound && c.specChannels == numChannels && c.specFreq == sampleRate
  {
  }

  /** Everything a voice goes through in these files. */
  datatype VoiceOp = Create(numChannels: int, sampleRate: int) | Start | Stop | Pause | UnPause | Destroy | Bind

  function Apply(v: VoiceState, op: VoiceOp): VoiceState {
    match op
    case Create(c, r) => CreatedWith(v, c, r)
    case Start => Started(v)
    case Stop => Stopped(v)
    case Pause => v.(paused := true)
    case UnPause => v.(paused := false)
    case Destroy => Destroyed(v)
    case Bind => v.(bound := true)
  }

  function Run(v: VoiceState, ops: seq<VoiceOp>): VoiceState
    decreases |ops|
  {
    if |ops| == 0 then v else Run(Apply(v, ops[0]), ops[1..])
  }

  /**
   * Nothing in these files sets m_looping or gives a voice a buffer, so
   * from a fresh voice IsPlaying is always false and CompatibleFormat
   * always true, whatever the voice goes through.
   */
  lemma {:induction false} NeverLoopsNorBuffers(v: VoiceState, ops: seq<VoiceOp>)
    requires !v.looping && !v.hasBuffer
    ensures var w := Run(v, ops); !w.looping && !w.hasBuffer && !IsPlaying(w) && CompatibleFormat(w)
    decreases |ops|
  {
    if |ops| > 0 {
      NeverLoopsNorBuffers(Apply(v, ops[0]), ops[1..]);
    }
  }

  /** size_t arithmetic: the difference m_size / m_channels - m_cursor wraps below zero. */
  function SizeT(x: int): (r: int)
    ensures 0 <= r < SIZE_T_MODULUS && (r - x) % SIZE_T_MODULUS == 0
  {
    x % SIZE_T_MODULUS
  }

  /** GetAmplitude's guard lets the voice through to the frame count. */
  predicate AmplitudeGuardPasses(v: VoiceState) {
    v.playing && !v.paused
  }

  /** framesToCheck as written: min(128, m_size / m_channels - m_cursor), which divides by m_channels. */
  function FramesToCheckAsWritten(v: VoiceState): (frames: int)
    requires v.channels != 0
    ensures 0 <= frames <= 128
    ensures 0 <= v.size / v.channels - v.cursor ==> frames <= v.size / v.channels - v.cursor
    ensures 128 - SIZE_T_MODULUS <= v.size / v.channels - v.cursor < 0 ==> frames == 128
  {
    var avail := SizeT(v.size / v.channels - v.cursor);
    if avail < 128 then avail else 128
  }

  /**
   * A fresh voice that is created and started passes the guard of
   * GetAmplitude with m_channels still 0: the frame count divides by zero
   * (and would then read through the null m_buffer).
   */
  lemma AmplitudeDividesByZero(numChannels: int, sampleRate: int)
    ensures var v := Started(CreatedWith(FRESH_VOICE, numChannels, sampleRate));
      AmplitudeGuardPasses(v) && v.channels == 0 && !v.hasBuffer
  {
  }

  /**
   * The frame count with the guard the code evidently needs: no frames for
   * a voice that is not playing, is paused, has no channels or has no
   * buffer; otherwise at most 128.
   */
  function AmplitudeFrames(v: VoiceState): (frames: int)
    ensures 0 <= frames <= 128
    ensures frames > 0 ==> AmplitudeGuardPasses(v) && v.channels > 0 && v.hasBuffer
    ensures AmplitudeGuardPasses(v) && v.channels > 0 && v.hasBuffer ==> frames == FramesToCheckAsWritten(v)
  {
    if !AmplitudeGuardPasses(v) || v.channels <= 0 || !v.hasBuffer then 0
    else FramesToCheckAsWritten(v)
  }

  /** No voice of these files ever yields amplitude frames: GetAmplitude is 0 for all of them. */
  lemma NoAmplitudeFrames(v: VoiceState, ops: seq<VoiceOp>)
    requires !v.looping && !v.hasBuffer
    ensures AmplitudeFrames(Run(v, ops)) == 0
  {
    NeverLoopsNorBuffers(v, ops);
  }

  class Voice {
    var looping: bool
    var playing: bool
    var paused: bool
    var channels: int
    var sampleRate: int
    var size: int
    var cursor: int
    var hasBuffer: bool
    var specChannels: int
    var specFreq: int
    var hasStream: bool
    var bound: bool

    function Snapshot(): VoiceState
      reads this
    {
      VoiceState(looping, playing, paused, channels, sampleRate, size, cursor, hasBuffer,
                 specChannels, specFreq, hasStream, bound)
    }

    constructor ()
      ensures Snapshot() == FRESH_VOICE
    {
      looping, playing, paused := false, false, false;
      channels, sampleRate, size, cursor := 0, 0, 0, 0;
      hasBuffer := false;
      specChannels, specFreq := 0, 0;
      hasStream, bound := false, false;
    }

    /** idSoundVoiceSDL3::Create, given the lead-in sample's channel count and rate. */
    method Create(numChannels: int, sampleRate': int)
      modifies this
      ensures Snapshot() == CreatedWith(old(Snapshot()), numChannels, sampleRate')
    {
      specChannels := numChannels;
      specFreq := sampleRate';
      if IsPlaying(Snapshot()) {
        Stop();
        return;
      }
      hasStream := true;
    }

    method Start()
      modifies this
      ensures Snapshot() == Started(old(Snapshot()))
    {
      playing := true;
      paused := false;
      cursor := 0;
    }

    method Stop()
      modifies this
      ensures Snapshot() == Stopped(old(Snapshot()))
    {
      playing := false;
      paused := false;
      cursor := 0;
      bound := false;
    }

    method Pause()
      modifies this
      ensures Snapshot() == old(Snapshot()).(paused := true)
    {
      paused := true;
    }

    method UnPause()
      modifies this
      ensures Snapshot() == old(Snapshot()).(paused := false)
    {
      paused := false;
    }

    method DestroyInternal()
      modifies this
      ensures Snapshot() == Destroyed(old(Snapshot()))
    {
      // the buffer, if any, is freed
      hasBuffer, looping, playing, paused, channels, sampleRate, size, cursor :=
        false, false, false, false, 0, 0, 0, 0;
    }

    /** The hardware's m_device.BindStream( voice->Stream() ). */
    method BindStream()
      modifies this
      ensures Snapshot() == old(Snapshot()).(bound := true)
    {
      bound := true;
    }

    /** The frame count of GetAmplitude with the corrected guard; 0 means GetAmplitude returns 0. */
    method AmplitudeFrameCount() returns (frames: int)
      ensures frames == AmplitudeFrames(Snapshot())
    {
      if !playing || paused || channels <= 0 || !hasBuffer {
        return 0;
      }
      var avail := SizeT(size / channels - cursor);
      frames := if avail < 128 then avail else 128;
    }
  }

  // ---------------------------------------------------------------------
  // The voice pool

  /** idList::Remove: the first element equal to x taken out, the order of the rest kept. */
  function RemoveFirst<T(==)>(s: seq<T>, x: T): (r: seq<T>)
    ensures multiset(r) == multiset(s) - multiset{x}
    ensures x in s ==> |r| == |s| - 1
    ensures x !in s ==> r == s
    decreases |s|
  {
    if |s| == 0 then []
    else if s[0] == x then (assert s == [s[0]] + s[1..]; s[1..])
    else (assert s == [s[0]] + s[1..]; [s[0]] + RemoveFirst(s[1..], x))
  }

  /**
   * The voice-choice loop of AllocateVoice from index i on, cand being the
   * last non-playing voice seen: break at the first non-playing compatible
   * voice, otherwise end with the last non-playing one.
   */
  function Pick(st: seq<VoiceState>, i: nat, cand: Option<nat>): Option<nat>
    requires i <= |st|
    decreases |st| - i
  {
    if i == |st| then cand
    else if IsPlaying(st[i]) then Pick(st, i + 1, cand)
    else if CompatibleFormat(st[i]) then Some(i)
    else Pick(st, i + 1, Some(i))
  }

  predicate Usable(v: VoiceState) {
    !IsPlaying(v) && CompatibleFormat(v)
  }

  /**
   * What AllocateVoice picks: the first free voice that is not playing and
   * is compatible; failing that the last one not playing; failing that none.
   */
  lemma PickMeaning(st: seq<VoiceState>)
    ensures var r := Pick(st, 0, None);
      (r.Some? ==> r.value < |st| && !IsPlaying(st[r.value]))
      && (r.Some? && CompatibleFormat(st[r.value]) ==> forall j :: 0 <= j < r.value ==> !Usable(st[j]))
      && (r.Some? && !CompatibleFormat(st[r.value]) ==>
            (forall j :: 0 <= j < |st| ==> !Usable(st[j])) && forall j :: r.value < j < |st| ==> IsPlaying(st[j]))
      && (r.None? ==> forall j :: 0 <= j < |st| ==> IsPlaying(st[j]))
  {
    PickFrom(st, 0, None);
  }

  lemma {:induction false} PickFrom(st: seq<VoiceState>, i: nat, cand: Option<nat>)
    requires i <= |st|
    requires forall j :: 0 <= j < i ==> !Usable(st[j])
    requires cand.Some? ==> cand.value < i && !IsPlaying(st[cand.value]) && forall j :: cand.value < j < i ==> IsPlaying(st[j])
    requires cand.None? ==> forall j :: 0 <= j < i ==> IsPlaying(st[j])
    ensures var r := Pick(st, i, cand);
      (r.Some? ==> r.value < |st| && !IsPlaying(st[r.value]))
      && (r.Some? && CompatibleFormat(st[r.value]) ==> forall j :: 0 <= j < r.value ==> !Usable(st[j]))
      && (r.Some? && !CompatibleFormat(st[r.value]) ==>
            (forall j :: 0 <= j < |st| ==> !Usable(st[j])) && forall j :: r.value < j < |st| ==> IsPlaying(st[j]))
      && (r.None? ==> forall j :: 0 <= j < |st| ==> IsPlaying(st[j]))
    decreases |st| - i
  {
    if i < |st| {
      if IsPlaying(st[i]) {
        PickFrom(st, i + 1, cand);
      } else if !CompatibleFormat(st[i]) {
        PickFrom(st, i + 1, Some(i));
      }
    }
  }

  /** With voices that never loop nor hold a buffer, as in these files, AllocateVoice takes the head of the free list. */
  lemma PickTakesHead(st: seq<VoiceState>)
    requires forall j :: 0 <= j < |st| ==> !st[j].looping && !st[j].hasBuffer
    ensures Pick(st, 0, None) == if |st| == 0 then None else Some(0)
  {
  }

  function States(vs: seq<Voice>): (st: seq<VoiceState>)
    reads vs
    ensures |st| == |vs| && forall j :: 0 <= j < |vs| ==> st[j] == vs[j].Snapshot()
  {
    seq(|vs|, j reads vs requires 0 <= j < |vs| => vs[j].Snapshot())
  }

  /**
   * Every voice of the pool is on exactly one of the two lists, once. The
   * used list holds voice pointers, and its null entries name no voice.
   */
  predicate Partitioned(all: seq<Voice>, free: seq<Voice>, used: seq<Voice?>) {
    multiset(free) + multiset(used)[null := 0] == multiset(all)
  }

  /** Moving a voice from one list to the end of the other keeps every voice on exactly one list. */
  lemma MoveKeepsPartition(all: seq<Voice>, free: seq<Voice>, used: seq<Voice?>, x: Voice)
    ensures Partitioned(all, free, used) && x in free ==> Partitioned(all, RemoveFirst(free, x), used + [x])
    ensures Partitioned(all, free, used) && x in used ==> Partitioned(all, free + [x], RemoveFirst(used, x))
  {
    assert multiset(used + [x]) == multiset(used) + multiset{x};
    assert multiset(free + [x]) == multiset(free) + multiset{x};
  }

  /** n null voice pointers. */
  function NullVoices(n: nat): (s: seq<Voice?>)
    ensures |s| == n && forall j :: 0 <= j < n ==> s[j] == null
  {
    seq(n, _ => null)
  }

  /**
   * The used list as Init leaves it: SetNum( 96 ) as written gives it 96
   * entries that point at no voice, empty as evidently intended.
   */
  function UsedAfterInit(intended: bool): (used: seq<Voice?>)
    ensures intended ==> used == []
    ensures !intended ==> |used| == MAX_HARDWARE_VOICES && forall j :: 0 <= j < |used| ==> used[j] == null
  {
    if intended then [] else NullVoices(MAX_HARDWARE_VOICES)
  }

  /**
   * The null entries do not disturb the partition, but they shift every
   * allocated voice: the k-th voice appended after Init lands at index 96 + k
   * as written, at k as intended.
   */
  lemma UsedListAsWritten(all: seq<Voice>, appended: seq<Voice>)
    ensures Partitioned(all, all, UsedAfterInit(false)) && Partitioned(all, all, UsedAfterInit(true))
    ensures var used := UsedAfterInit(false) + appended;
      |used| == MAX_HARDWARE_VOICES + |appended|
      && (forall k :: 0 <= k < |appended| ==> used[MAX_HARDWARE_VOICES + k] == appended[k])
      && forall j :: 0 <= j < MAX_HARDWARE_VOICES ==> used[j] == null && used[j] !in appended
    ensures forall k :: 0 <= k < |appended| ==> (UsedAfterInit(true) + appended)[k] == appended[k]
  {
    var nulls := UsedAfterInit(false);
    assert multiset(nulls)[null := 0] == multiset{} by {
      forall v: Voice | true
        ensures multiset(nulls)[v] == 0
      {
        assert v !in nulls;
      }
    }
  }

  /** idSoundHardwareSDL3's lists m_voices, m_freeVoices and m_usedVoices, and its device. */
  class SoundHardware {
    var voices: seq<Voice>
    var freeVoices: seq<Voice>
    var usedVoices: seq<Voice?>
    var deviceOpen: bool

    constructor ()
      ensures voices == [] && freeVoices == [] && usedVoices == [] && !deviceOpen
    {
      voices, freeVoices, usedVoices, deviceOpen := [], [], [], false;
    }

    /**
     * Init's voice set-up (the device is taken to open): 96 new voices, all
     * on the free list in order. The used list is pre-sized with 96 null
     * entries as written, and starts empty when intended.
     */
    method Init(intended: bool)
      modifies this
      ensures |voices| == MAX_HARDWARE_VOICES && freeVoices == voices && usedVoices == UsedAfterInit(intended) && deviceOpen
      ensures forall j :: 0 <= j < |voices| ==> fresh(voices[j]) && voices[j].Snapshot() == FRESH_VOICE
      ensures forall j, k :: 0 <= j < k < |voices| ==> voices[j] != voices[k]
      ensures Partitioned(voices, freeVoices, usedVoices)
    {
      deviceOpen := true;
      var vs: seq<Voice> := [];
      while |vs| < MAX_HARDWARE_VOICES
        invariant |vs| <= MAX_HARDWARE_VOICES && deviceOpen
        invariant forall j :: 0 <= j < |vs| ==> fresh(vs[j]) && vs[j].Snapshot() == FRESH_VOICE
        invariant forall j, k :: 0 <= j < k < |vs| ==> vs[j] != vs[k]
      {
        var v := new Voice();
        vs := vs + [v];
      }
      voices := vs;
      usedVoices := UsedAfterInit(intended);
      freeVoices := [];
      var i := 0;
      while i < MAX_HARDWARE_VOICES
        invariant voices == vs && |vs| == MAX_HARDWARE_VOICES && usedVoices == UsedAfterInit(intended) && deviceOpen
        invariant 0 <= i <= MAX_HARDWARE_VOICES && freeVoices == voices[..i]
        invariant forall j :: 0 <= j < |vs| ==> fresh(vs[j]) && vs[j].Snapshot() == FRESH_VOICE
      {
        freeVoices := freeVoices + [voices[i]];
        i := i + 1;
      }
      UsedListAsWritten(voices, []);
    }

    /**
     * AllocateVoice, given whether the lead-in sample is null and its
     * channel count and rate: the voice Pick chooses is created, moved from
     * the free list to the end of the used list and bound to the device.
     */
    method AllocateVoice(leadinIsNull: bool, numChannels: int, sampleRate: int) returns (voice: Voice?)
      modifies this, freeVoices
      ensures voices == old(voices) && deviceOpen == old(deviceOpen)
      ensures var k: Option<nat> := if leadinIsNull then None else Pick(old(States(freeVoices)), 0, None);
        match k
        case None =>
          voice == null && freeVoices == old(freeVoices) && usedVoices == old(usedVoices)
          && forall v :: v in old(freeVoices) ==> v.Snapshot() == old(v.Snapshot())
        case Some(j) =>
          j < |old(freeVoices)| && voice == old(freeVoices)[j]
          && freeVoices == RemoveFirst(old(freeVoices), old(freeVoices)[j]) && usedVoices == old(usedVoices) + [old(freeVoices)[j]]
          && voice.Snapshot() == CreatedWith(old(voice.Snapshot()), numChannels, sampleRate).(bound := true)
          && forall v :: v in old(freeVoices) && v != voice ==> v.Snapshot() == old(v.Snapshot())
      ensures old(Partitioned(voices, freeVoices, usedVoices)) ==> Partitioned(voices, freeVoices, usedVoices)
    {
      if leadinIsNull {
        return null;
      }
      voice := ChooseFreeVoice(freeVoices);
      if voice != null {
        var chosen: Voice := voice;
        TakeVoice(chosen, numChannels, sampleRate);
        return chosen;
      }
      return null;
    }

    /** The chosen voice is created, moved from the free list to the end of the used list and bound to the device. */
    method TakeVoice(chosen: Voice, numChannels: int, sampleRate: int)
      modifies this, chosen
      ensures voices == old(voices) && deviceOpen == old(deviceOpen)
      ensures freeVoices == RemoveFirst(old(freeVoices), chosen) && usedVoices == old(usedVoices) + [chosen]
      ensures chosen.Snapshot() == CreatedWith(old(chosen.Snapshot()), numChannels, sampleRate).(bound := true)
      ensures chosen in old(freeVoices) && old(Partitioned(voices, freeVoices, usedVoices)) ==> Partitioned(voices, freeVoices, usedVoices)
    {
      MoveKeepsPartition(voices, freeVoices, usedVoices, chosen);
      chosen.Create(numChannels, sampleRate);
      freeVoices := RemoveFirst(freeVoices, chosen);
      usedVoices := usedVoices + [chosen];
      chosen.BindStream();
    }

    /** FreeVoice: off the used list, onto the end of the free list, and stopped. */
    method FreeVoice(voice: Voice)
      modifies this, voice
      ensures voices == old(voices) && deviceOpen == old(deviceOpen)
      ensures usedVoices == RemoveFirst(old(usedVoices), voice) && freeVoices == old(freeVoices) + [voice]
      ensures voice.Snapshot() == Stopped(old(voice.Snapshot()))
      ensures voice in old(usedVoices) && old(Partitioned(voices, freeVoices, usedVoices)) ==> Partitioned(voices, freeVoices, usedVoices)
    {
      MoveKeepsPartition(voices, freeVoices, usedVoices, voice);
      usedVoices := RemoveFirst(usedVoices, voice);
      freeVoices := freeVoices + [voice];
      voice.Stop();
    }

    /**
     * Shutdown: every used voice is stopped, the three lists are cleared
     * (clearing m_voices runs each voice's destructor, DestroyInternal) and
     * the device is closed.
     */
    method Shutdown()
      modifies this, usedVoices, voices
      ensures voices == [] && freeVoices == [] && usedVoices == [] && !deviceOpen
      ensures forall v :: v in old(voices) ==>
        v.Snapshot() == Destroyed(if v in old(usedVoices) then Stopped(old(v.Snapshot())) else old(v.Snapshot()))
      ensures forall v: Voice :: v in old(usedVoices) && v !in old(voices) ==> v.Snapshot() == Stopped(old(v.Snapshot()))
    {
      StopAll(usedVoices);
      usedVoices := [];
      freeVoices := [];
      DestroyAll(voices);
      voices := [];
      deviceOpen := false;
    }
  }

  /**
   * Init followed by the first allocation: the first voice of the pool is
   * taken and lands at index 96 of the used list as written, behind the 96
   * null entries, and at index 0 as intended.
   */
  method InitThenAllocate(hw: SoundHardware, intended: bool, numChannels: int, sampleRate: int) returns (voice: Voice?)
    modifies hw
    ensures |hw.voices| == MAX_HARDWARE_VOICES && voice != null && voice == hw.voices[0] && hw.usedVoices == UsedAfterInit(intended) + [voice]
    ensures var at := if intended then 0 else MAX_HARDWARE_VOICES;
      |hw.usedVoices| == at + 1 && hw.usedVoices[at] == voice && forall j :: 0 <= j < at ==> hw.usedVoices[j] == null
    ensures Partitioned(hw.voices, hw.freeVoices, hw.usedVoices)
  {
    hw.Init(intended);
    PickTakesHead(States(hw.freeVoices));
    voice := hw.AllocateVoice(false, numChannels, sampleRate);
    UsedListAsWritten(hw.voices, [voice]);
  }

  /** The search loop of AllocateVoice over the free list. */
  method ChooseFreeVoice(free: seq<Voice>) returns (voice: Voice?)
    ensures var k := Pick(States(free), 0, None);
      (k.None? <==> voice == null) && (k.Some? ==> k.value < |free| && voice == free[k.value])
  {
    ghost var st := States(free);
    voice := null;
    ghost var cand: Option<nat> := None;
    var i := 0;
    while i < |free|
      invariant 0 <= i <= |free| && Pick(st, 0, None) == Pick(st, i, cand)
      invariant cand.None? <==> voice == null
      invariant cand.Some? ==> cand.value < |free| && voice == free[cand.value]
    {
      if IsPlaying(free[i].Snapshot()) {
        i := i + 1;
        continue;
      }
      voice := free[i];
      cand := Some(i);
      if CompatibleFormat(voice.Snapshot()) {
        break;
      }
      i := i + 1;
    }
    assert Pick(st, 0, None) == cand;
  }

  /** The loop of Shutdown over m_usedVoices: Stop on each entry that is not null; a voice listed twice is stopped twice, to the same effect. */
  method StopAll(vs: seq<Voice?>)
    modifies vs
    ensures forall v: Voice :: v in vs ==> v.Snapshot() == Stopped(old(v.Snapshot()))
  {
    var i := 0;
    while i < |vs|
      invariant 0 <= i <= |vs|
      invariant forall v: Voice :: v in vs ==> v.Snapshot() == (if v in vs[..i] then Stopped(old(v.Snapshot())) else old(v.Snapshot()))
    {
      if vs[i] != null {
        StopAfterStart(old(vs[i].Snapshot()));
        vs[i].Stop();
      }
      assert vs[..i + 1] == vs[..i] + [vs[i]];
      i := i + 1;
    }
    assert vs[..i] == vs;
  }

  /** m_voices.Clear(): each voice's destructor runs DestroyInternal. */
  method DestroyAll(vs: seq<Voice>)
    modifies vs
    ensures forall v :: v in vs ==> v.Snapshot() == Destroyed(old(v.Snapshot()))
  {
    var i := 0;
    while i < |vs|
      invariant 0 <= i <= |vs|
      invariant forall v :: v in vs ==> v.Snapshot() == (if v in vs[..i] then Destroyed(old(v.Snapshot())) else old(v.Snapshot()))
    {
      DestroyResets(old(vs[i].Snapshot()));
      vs[i].DestroyInternal();
      assert vs[..i + 1] == vs[..i] + [vs[i]];
      i := i + 1;
    }
    assert vs[..i] == vs;
  }
}
