/**
 * `AudioManager` (include/AudioManager.h, src/AudioManager.cpp): the
 * loopback capture state of the visualiser.  Captured frames are down-mixed
 * into an accumulator; once it holds a full analysis window the window is
 * transformed and the first half of the spectrum becomes the bar
 * magnitudes; the render methods turn magnitudes into rectangles or curves.
 *
 * The capture buffer is an argument of `GetAudio`, the transform with its
 * magnitude and scaling chain is the function argument `bin`, and calls into
 * the platform (releasing a buffer, running the transform, releasing a
 * handle) are appended to the ghost log `calls`.  A draw call appends what
 * it draws to the sequence a render method returns.
 */
module AudioManager {
  import opened Globals
  import opened AudioSettings
  import opened Palette
  import opened Smoothing
  import opened BarGeometry

  /** A platform handle: null, or a live object with an identity. */
  datatype Handle = Null | Live(id: nat)

  /** The platform objects an audio manager owns. */
  datatype Resource = Enumerator | Device | AudioClient | CaptureClient | MixFormat | FftConfig

  /** A complex sample of the transform's input. */
  datatype Complex = Complex(re: real, im: real)

  /** A call into the platform that the model observes. */
  datatype PlatformCall = ReleaseBuffer(frames: nat) | Transform(window: seq<Complex>) | Release(resource: Resource, id: nat)

  /** The six owned handles of one manager, in declaration order. */
  datatype Handles = Handles(enumerator: Handle, device: Handle, audioClient: Handle,
                             captureClient: Handle, mixFormat: Handle, fftConfig: Handle)

  const NULL_HANDLES: Handles := Handles(Null, Null, Null, Null, Null, Null)

  function Zeros(n: nat): (z: seq<real>)
    ensures |z| == n && forall i :: 0 <= i < n ==> z[i] == 0.0
  {
    seq(n, _ => 0.0)
  }

  // ---------------------------------------------------------------------
  // Capture
  // ---------------------------------------------------------------------

  /** The captured buffer holds `frames` frames of `channels` samples each. */
  predicate Covers(data: seq<real>, frames: nat, channels: int)
  {
    (channels == 2 ==> |data| >= 2 * frames) && (channels == 1 ==> |data| >= frames)
  }

  /** What frame i contributes to the accumulator: the mean of a stereo pair, a mono sample, or nothing. */
  function FrameSample(data: seq<real>, i: nat, channels: int): seq<real>
    requires Covers(data, i + 1, channels)
  {
    if channels == 2 then [0.5 * (data[2 * i] + data[2 * i + 1])]
    else if channels == 1 then [data[i]]
    else []
  }

  /** The mono samples the first `frames` frames down-mix to. */
  function Downmix(data: seq<real>, frames: nat, channels: int): (s: seq<real>)
    requires Covers(data, frames, channels)
    ensures channels == 1 || channels == 2 ==> |s| == frames
    ensures channels != 1 && channels != 2 ==> s == []
    ensures channels == 2 ==> forall i :: 0 <= i < frames ==> s[i] == 0.5 * (data[2 * i] + data[2 * i + 1])
    ensures channels == 1 ==> s == data[..frames]
  {
    if frames == 0 then [] else Downmix(data, frames - 1, channels) + FrameSample(data, frames - 1, channels)
  }

  /**
   * The transform's input: a window of FFT_COUNT zeros whose slot i holds
   * accumulated sample i for every i below both the frame count and the
   * window length.
   */
  function AnalysisWindow(acc: seq<real>, frames: nat): (w: seq<Complex>)
    requires |acc| >= FFT_COUNT
    ensures |w| == FFT_COUNT
  {
    seq(FFT_COUNT, i requires 0 <= i < FFT_COUNT => if i < frames then Complex(acc[i], 0.0) else Complex(0.0, 0.0))
  }

  /** Only the first FFT_COUNT accumulated samples, and only the first `frames` of those, reach the transform. */
  lemma WindowIgnoresLateSamples(acc: seq<real>, acc': seq<real>, frames: nat)
    requires |acc| >= FFT_COUNT && |acc'| >= FFT_COUNT
    requires forall i :: 0 <= i < FFT_COUNT && i < frames ==> acc[i] == acc'[i]
    ensures AnalysisWindow(acc, frames) == AnalysisWindow(acc', frames)
  {
  }

  /** Every slot of the window is real-valued, and the slots past the frame count are zero. */
  lemma WindowIsZeroPadded(acc: seq<real>, frames: nat, i: nat)
    requires |acc| >= FFT_COUNT && i < FFT_COUNT
    ensures AnalysisWindow(acc, frames)[i].im == 0.0
    ensures i >= frames ==> AnalysisWindow(acc, frames)[i] == Complex(0.0, 0.0)
    ensures i < frames ==> AnalysisWindow(acc, frames)[i].re == acc[i]
  {
  }

  /** The magnitudes of the first half of the spectrum of a window. */
  function Spectrum(window: seq<Complex>, bin: (seq<Complex>, nat) -> real): (m: seq<real>)
    ensures |m| == HALF_SPECTRUM
  {
    seq(HALF_SPECTRUM, i requires 0 <= i < HALF_SPECTRUM => bin(window, i))
  }

  // ---------------------------------------------------------------------
  // Ownership
  // ---------------------------------------------------------------------

  /** The release of one handle if it is not null. */
  function ReleaseIfLive(r: Resource, h: Handle): seq<PlatformCall>
  {
    if h.Live? then [Release(r, h.id)] else []
  }

  /** The releases the destructor performs, in its order. */
  function DestructorReleases(hs: Handles): seq<PlatformCall>
  {
    ReleaseIfLive(Enumerator, hs.enumerator) + ReleaseIfLive(MixFormat, hs.mixFormat) +
    ReleaseIfLive(Device, hs.device) + ReleaseIfLive(AudioClient, hs.audioClient) +
    ReleaseIfLive(CaptureClient, hs.captureClient) + ReleaseIfLive(FftConfig, hs.fftConfig)
  }

  /** The releases move assignment performs on the target's old handles, in its order. */
  function AssignReleases(hs: Handles): seq<PlatformCall>
  {
    ReleaseIfLive(Enumerator, hs.enumerator) + ReleaseIfLive(Device, hs.device) +
    ReleaseIfLive(AudioClient, hs.audioClient) + ReleaseIfLive(CaptureClient, hs.captureClient) +
    ReleaseIfLive(MixFormat, hs.mixFormat) + ReleaseIfLive(FftConfig, hs.fftConfig)
  }

  /** The handle of a given resource. */
  function Slot(hs: Handles, r: Resource): Handle
  {
    match r
    case Enumerator => hs.enumerator
    case Device => hs.device
    case AudioClient => hs.audioClient
    case CaptureClient => hs.captureClient
    case MixFormat => hs.mixFormat
    case FftConfig => hs.fftConfig
  }

  /** The destructor releases exactly the live handles, each with its own identity. */
  lemma DestructorReleasesLive(hs: Handles, r: Resource, id: nat)
    ensures Release(r, id) in DestructorReleases(hs) <==> Slot(hs, r) == Live(id)
  {
  }

  /** No resource is released twice by one destruction. */
  lemma DestructorReleasesOnce(hs: Handles)
    ensures forall i, j :: 0 <= i < j < |DestructorReleases(hs)| ==>
      DestructorReleases(hs)[i].resource != DestructorReleases(hs)[j].resource
  {
  }

  /** Move assignment releases the same handles as the destructor would, only in another order. */
  lemma AssignReleasesAsDestructor(hs: Handles)
    ensures multiset(AssignReleases(hs)) == multiset(DestructorReleases(hs))
  {
  }

  /** A manager whose handles are all null releases nothing. */
  lemma NulledReleasesNothing()
    ensures DestructorReleases(NULL_HANDLES) == [] && AssignReleases(NULL_HANDLES) == []
  {
  }

  /**
   * Moving b into a by assignment and then destroying both releases every
   * handle of a and of b exactly once: a's old handles during the
   * assignment, b's handles when a is destroyed, none when b is destroyed.
   */
  lemma MoveAssignThenDestroy(a: Handles, b: Handles)
    ensures multiset(AssignReleases(a) + DestructorReleases(b) + DestructorReleases(NULL_HANDLES))
         == multiset(DestructorReleases(a)) + multiset(DestructorReleases(b))
  {
    AssignReleasesAsDestructor(a);
    NulledReleasesNothing();
  }

  lemma ReleasesAssociate(log: seq<PlatformCall>, a: seq<PlatformCall>, b: seq<PlatformCall>, c: seq<PlatformCall>,
                          d: seq<PlatformCall>, e: seq<PlatformCall>, f: seq<PlatformCall>)
    ensures log + a + b + c + d + e + f == log + (a + b + c + d + e + f)
  {
  }

  // ---------------------------------------------------------------------
  // The manager
  // ---------------------------------------------------------------------

  class AudioManager {
    var color: char
    var magnitudes: seq<real>
    var prevMagnitudes: seq<real>
    var accumulator: seq<real>
    var enumerator: Handle
    var device: Handle
    var audioClient: Handle
    var captureClient: Handle
    var mixFormat: Handle
    var fftConfig: Handle
    var hnsRequestedDuration: int
    var settings: Settings
    ghost var calls: seq<PlatformCall>

    /** A manager that owns its data: a full half spectrum, and previous heights either not yet allocated or one per bin. */
    predicate Valid()
      reads this
    {
      |magnitudes| == HALF_SPECTRUM && (|prevMagnitudes| == 0 || |prevMagnitudes| == HALF_SPECTRUM)
    }

    /** The six owned handles as one value. */
    function HandleSet(): Handles
      reads this`enumerator, this`device, this`audioClient, this`captureClient, this`mixFormat, this`fftConfig
    {
      Handles(enumerator, device, audioClient, captureClient, mixFormat, fftConfig)
    }

    /**
     * A successfully constructed manager: each platform step has produced
     * its object (identified by the arguments), the colour code is NUL,
     * the magnitudes are a zeroed half spectrum and nothing else is held yet.
     * The settings are what the member initialiser `settings{DEFAULT_SETTINGS}`
     * yields as written (`AudioSettings.DefaultSettings`, a 0 by 0 window);
     * `Corrected` below is the same construction with the evidently intended
     * settings.
     */
    constructor(enumeratorId: nat, deviceId: nat, clientId: nat, captureId: nat, formatId: nat, fftId: nat)
      ensures Valid()
      ensures color == INITIAL_CODE && magnitudes == Zeros(HALF_SPECTRUM)
      ensures prevMagnitudes == [] && accumulator == []
      ensures HandleSet() == Handles(Live(enumeratorId), Live(deviceId), Live(clientId), Live(captureId), Live(formatId), Live(fftId))
      ensures hnsRequestedDuration == REFTIMES_PER_SEC && settings == DefaultSettings()
      ensures calls == []
    {
      color := INITIAL_CODE;
      fftConfig := Live(fftId);
      magnitudes := Zeros(HALF_SPECTRUM);
      prevMagnitudes := [];
      accumulator := [];
      hnsRequestedDuration := REFTIMES_PER_SEC;
      settings := DefaultSettings();
      enumerator := Live(enumeratorId);
      device := Live(deviceId);
      audioClient := Live(clientId);
      mixFormat := Live(formatId);
      captureClient := Live(captureId);
      calls := [];
    }

    /**
     * The construction with the settings the default list evidently intends
     * (`AudioSettings.IntendedSettings`: a 1920 by 1080 window, coefficient
     * 0.9); everything else is as for the constructor above.
     */
    constructor Corrected(enumeratorId: nat, deviceId: nat, clientId: nat, captureId: nat, formatId: nat, fftId: nat)
      ensures Valid()
      ensures color == INITIAL_CODE && magnitudes == Zeros(HALF_SPECTRUM)
      ensures prevMagnitudes == [] && accumulator == []
      ensures HandleSet() == Handles(Live(enumeratorId), Live(deviceId), Live(clientId), Live(captureId), Live(formatId), Live(fftId))
      ensures hnsRequestedDuration == REFTIMES_PER_SEC && settings == IntendedSettings()
      ensures calls == []
    {
      color := INITIAL_CODE;
      fftConfig := Live(fftId);
      magnitudes := Zeros(HALF_SPECTRUM);
      prevMagnitudes := [];
      accumulator := [];
      hnsRequestedDuration := REFTIMES_PER_SEC;
      settings := IntendedSettings();
      enumerator := Live(enumeratorId);
      device := Live(deviceId);
      audioClient := Live(clientId);
      mixFormat := Live(formatId);
      captureClient := Live(captureId);
      calls := [];
    }

    /** The destructor: every non-null handle is released once and nulled. */
    method Destroy()
      modifies this`enumerator, this`device, this`audioClient, this`captureClient, this`mixFormat, this`fftConfig, this`calls
      ensures calls == old(calls) + DestructorReleases(old(HandleSet()))
      ensures HandleSet() == NULL_HANDLES
    {
      ghost var hs := HandleSet();
      ReleaseHandle(Enumerator, enumerator);
      enumerator := Null;
      ReleaseHandle(MixFormat, mixFormat);
      mixFormat := Null;
      ReleaseHandle(Device, device);
      device := Null;
      ReleaseHandle(AudioClient, audioClient);
      audioClient := Null;
      ReleaseHandle(CaptureClient, captureClient);
      captureClient := Null;
      ReleaseHandle(FftConfig, fftConfig);
      fftConfig := Null;
      ReleasesAssociate(old(calls), ReleaseIfLive(Enumerator, hs.enumerator), ReleaseIfLive(MixFormat, hs.mixFormat),
        ReleaseIfLive(Device, hs.device), ReleaseIfLive(AudioClient, hs.audioClient),
        ReleaseIfLive(CaptureClient, hs.captureClient), ReleaseIfLive(FftConfig, hs.fftConfig));
    }

    /** Releases the object behind one handle if it is not null; the handle itself is left to the caller. */
    method ReleaseHandle(r: Resource, h: Handle)
      modifies this`calls
      ensures calls == old(calls) + ReleaseIfLive(r, h)
    {
      if h.Live? {
        calls := calls + [Release(r, h.id)];
      }
    }

    /**
     * The move constructor: the new manager takes the other's handles,
     * duration, magnitudes, accumulator and colour code; the other's
     * handles are nulled and its vectors left empty.  The previous heights
     * and the settings are not taken: the new manager starts with none and
     * with the settings the member initialiser yields as written.
     */
    constructor Move(other: AudioManager)
      modifies other
      ensures HandleSet() == old(other.HandleSet()) && other.HandleSet() == NULL_HANDLES
      ensures hnsRequestedDuration == old(other.hnsRequestedDuration)
      ensures magnitudes == old(other.magnitudes) && accumulator == old(other.accumulator) && color == old(other.color)
      ensures prevMagnitudes == [] && settings == DefaultSettings() && calls == []
      ensures other.magnitudes == [] && other.accumulator == []
      ensures other.color == old(other.color) && other.prevMagnitudes == old(other.prevMagnitudes)
      ensures other.settings == old(other.settings) && other.hnsRequestedDuration == old(other.hnsRequestedDuration)
      ensures other.calls == old(other.calls)
    {
      enumerator := other.enumerator;
      device := other.device;
      audioClient := other.audioClient;
      captureClient := other.captureClient;
      hnsRequestedDuration := other.hnsRequestedDuration;
      mixFormat := other.mixFormat;
      fftConfig := other.fftConfig;
      magnitudes := other.magnitudes;
      accumulator := other.accumulator;
      color := other.color;
      prevMagnitudes := [];
      settings := DefaultSettings();
      calls := [];
      new;
      other.Invalidate();
    }

    /**
     * Move assignment: nothing on self-assignment; otherwise this manager's
     * non-null handles are released, it takes the other's handles,
     * duration, magnitudes and accumulator, and the other is nulled and
     * emptied.  The colour code, previous heights and settings of this
     * manager stay as they were.
     */
    method MoveAssign(other: AudioManager)
      modifies this`enumerator, this`device, this`audioClient, this`captureClient, this`mixFormat, this`fftConfig
      modifies this`hnsRequestedDuration, this`magnitudes, this`accumulator, this`calls
      modifies other`enumerator, other`device, other`audioClient, other`captureClient, other`mixFormat, other`fftConfig
      modifies other`magnitudes, other`accumulator
      ensures other == this ==>
        HandleSet() == old(HandleSet()) && calls == old(calls) &&
        magnitudes == old(magnitudes) && accumulator == old(accumulator) &&
        hnsRequestedDuration == old(hnsRequestedDuration)
      ensures other != this ==>
        calls == old(calls) + AssignReleases(old(HandleSet())) &&
        HandleSet() == old(other.HandleSet()) && other.HandleSet() == NULL_HANDLES &&
        hnsRequestedDuration == old(other.hnsRequestedDuration) &&
        magnitudes == old(other.magnitudes) && accumulator == old(other.accumulator) &&
        other.magnitudes == [] && other.accumulator == [] &&
        other.color == old(other.color) && other.prevMagnitudes == old(other.prevMagnitudes) &&
        other.calls == old(other.calls)
      ensures color == old(color) && prevMagnitudes == old(prevMagnitudes) && settings == old(settings)
    {
      if other == this {
        return;
      }
      ReleaseOwned();
      TakeFrom(other);
      other.Invalidate();
    }

    /** The releases at the start of move assignment: each non-null handle, in the assignment's order; the handles are overwritten after. */
    method ReleaseOwned()
      modifies this`calls
      ensures calls == old(calls) + AssignReleases(HandleSet())
    {
      ghost var hs := HandleSet();
      ReleaseHandle(Enumerator, enumerator);
      ReleaseHandle(Device, device);
      ReleaseHandle(AudioClient, audioClient);
      ReleaseHandle(CaptureClient, captureClient);
      ReleaseHandle(MixFormat, mixFormat);
      ReleaseHandle(FftConfig, fftConfig);
      ReleasesAssociate(old(calls), ReleaseIfLive(Enumerator, hs.enumerator), ReleaseIfLive(Device, hs.device),
        ReleaseIfLive(AudioClient, hs.audioClient), ReleaseIfLive(CaptureClient, hs.captureClient),
        ReleaseIfLive(MixFormat, hs.mixFormat), ReleaseIfLive(FftConfig, hs.fftConfig));
    }

    /** What a move carries over from the other manager: its handles, duration, magnitudes and accumulator. */
    method TakeFrom(other: AudioManager)
      requires other != this
      modifies this`enumerator, this`device, this`audioClient, this`captureClient, this`mixFormat, this`fftConfig
      modifies this`hnsRequestedDuration, this`magnitudes, this`accumulator
      ensures HandleSet() == other.HandleSet() && hnsRequestedDuration == other.hnsRequestedDuration
      ensures magnitudes == other.magnitudes && accumulator == other.accumulator
    {
      enumerator := other.enumerator;
      device := other.device;
      audioClient := other.audioClient;
      captureClient := other.captureClient;
      hnsRequestedDuration := other.hnsRequestedDuration;
      mixFormat := other.mixFormat;
      fftConfig := other.fftConfig;
      magnitudes := other.magnitudes;
      accumulator := other.accumulator;
    }

    /** Leaves a moved-from manager owning nothing: every handle null, magnitudes and accumulator moved out. */
    method Invalidate()
      modifies this`enumerator, this`device, this`audioClient, this`captureClient, this`mixFormat, this`fftConfig
      modifies this`magnitudes, this`accumulator
      ensures HandleSet() == NULL_HANDLES && magnitudes == [] && accumulator == []
    {
      magnitudes := [];
      accumulator := [];
      enumerator := Null;
      device := Null;
      audioClient := Null;
      captureClient := Null;
      mixFormat := Null;
      fftConfig := Null;
    }

    /** `SetColorFunction`: advances the colour code one step around the cycle. */
    method SetColorFunction()
      modifies this`color
      ensures color == NextColor(old(color))
    {
      match color
      case 'r' => color := 'g';
      case 'g' => color := 'b';
      case 'b' => color := '1';
      case '1' => color := '2';
      case '2' => color := '3';
      case '3' => color := '4';
      case '4' => color := '5';
      case '5' => color := '6';
      case '6' => color := '7';
      case '7' => color := '8';
      case '8' => color := 'r';
      case _ => color := 'r';
    }

    /**
     * `GetAudio` on one captured buffer (`hr`, `frames`, `silent`, `data`),
     * with `channels` the mix format's channel count.  A failed capture
     * releases the buffer and throws; a silent buffer zeroes the magnitudes
     * and releases it; otherwise the frames are down-mixed into the
     * accumulator, and once it holds a full window the window is
     * transformed, the accumulator emptied and the buffer released.  Below
     * that threshold the buffer is not released.
     */
    method GetAudio(hr: int, frames: nat, silent: bool, data: seq<real>, channels: int,
                    bin: (seq<Complex>, nat) -> real) returns (s: Status)
      requires Valid() && captureClient.Live? && mixFormat.Live?
      requires Covers(data, frames, channels)
      modifies this`magnitudes, this`accumulator, this`calls
      ensures Valid()
      ensures Failed(hr) ==>
        s == RuntimeError("Failed to get buffer") && calls == old(calls) + [ReleaseBuffer(frames)] &&
        magnitudes == old(magnitudes) && accumulator == old(accumulator)
      ensures !Failed(hr) ==> s == Ok
      ensures !Failed(hr) && silent ==>
        magnitudes == Zeros(HALF_SPECTRUM) && accumulator == old(accumulator) && calls == old(calls) + [ReleaseBuffer(frames)]
      ensures !Failed(hr) && !silent ==>
        var acc := old(accumulator) + Downmix(data, frames, channels);
        if |acc| >= FFT_COUNT then
          accumulator == [] && magnitudes == Spectrum(AnalysisWindow(acc, frames), bin) &&
          calls == old(calls) + [ReleaseBuffer(frames), Transform(AnalysisWindow(acc, frames))]
        else
          accumulator == acc && magnitudes == old(magnitudes) && calls == old(calls)
    {
      if Failed(hr) {
        calls := calls + [ReleaseBuffer(frames)];
        return RuntimeError("Failed to get buffer");
      }
      s := Ok;

      if silent {
        magnitudes := Zeros(HALF_SPECTRUM);
        calls := calls + [ReleaseBuffer(frames)];
        return;
      }

      Accumulate(data, frames, channels);

      if |accumulator| >= FFT_COUNT {
        var window := FillWindow(accumulator, frames);
        accumulator := [];
        calls := calls + [ReleaseBuffer(frames)];
        calls := calls + [Transform(window)];
        StoreSpectrum(window, bin);
      }
    }

    /** The down-mix loop of `GetAudio`: one sample per frame for one or two channels, none otherwise. */
    method Accumulate(data: seq<real>, frames: nat, channels: int)
      requires Covers(data, frames, channels)
      modifies this`accumulator
      ensures accumulator == old(accumulator) + Downmix(data, frames, channels)
    {
      var i := 0;
      while i < frames
        invariant 0 <= i <= frames
        invariant accumulator == old(accumulator) + Downmix(data, i, channels)
      {
        if channels == 2 {
          accumulator := accumulator + [0.5 * (data[i * 2] + data[i * 2 + 1])];
        } else if channels == 1 {
          accumulator := accumulator + [data[i]];
        }
        i := i + 1;
      }
    }

    /** The copy of the accumulator into a fresh zeroed window: only slots below both the frame count and the window length are written. */
    static method FillWindow(acc: seq<real>, frames: nat) returns (window: seq<Complex>)
      requires |acc| >= FFT_COUNT
      ensures window == AnalysisWindow(acc, frames)
    {
      window := seq(FFT_COUNT, _ => Complex(0.0, 0.0));
      var i := 0;
      while i < frames
        invariant 0 <= i <= frames && |window| == FFT_COUNT
        invariant forall j :: 0 <= j < FFT_COUNT ==>
          window[j] == if j < i then Complex(acc[j], 0.0) else Complex(0.0, 0.0)
      {
        if i < FFT_COUNT {
          window := window[i := Complex(acc[i], 0.0)];
        }
        i := i + 1;
      }
    }

    /** The magnitude loop of `GetAudio`: bin i of the transformed window for each of the first HALF_SPECTRUM slots. */
    method StoreSpectrum(window: seq<Complex>, bin: (seq<Complex>, nat) -> real)
      requires |magnitudes| == HALF_SPECTRUM
      modifies this`magnitudes
      ensures magnitudes == Spectrum(window, bin)
    {
      var i := 0;
      while i < HALF_SPECTRUM
        invariant 0 <= i <= HALF_SPECTRUM && |magnitudes| == HALF_SPECTRUM
        invariant forall j :: 0 <= j < i ==> magnitudes[j] == bin(window, j)
      {
        magnitudes := magnitudes[i := bin(window, i)];
        i := i + 1;
      }
    }

    /** The bar loop shared by the three plain renderers: bars not above the threshold are skipped. */
    method DrawBars(layout: Layout, hs: seq<real>, W: nat, H: nat) returns (drawn: seq<Rect>)
      ensures drawn == Render(layout, hs, W, H)
    {
      drawn := [];
      var i := 0;
      while i < |hs|
        invariant 0 <= i <= |hs|
        invariant drawn == Render(layout, hs[..i], W, H)
      {
        assert hs[..i + 1][..i] == hs[..i];
        if Visible(layout, hs[i]) {
          drawn := drawn + BarRects(layout, i, hs[i], W, H);
        }
        i := i + 1;
      }
      assert hs[..|hs|] == hs;
    }

    /** `RenderAudio`: bars from the left edge, standing on the bottom of a W by H window. */
    method RenderAudio(w: Handle, W: nat, H: nat) returns (s: Status, drawn: seq<Rect>)
      requires Valid()
      ensures w.Null? ==> s == InvalidArgument("No render window found in RenderAudio()") && drawn == []
      ensures w.Live? ==> s == Ok && drawn == Render(Default, magnitudes[..RENDER_BARS], W, H)
    {
      if w.Null? {
        return InvalidArgument("No render window found in RenderAudio()"), [];
      }
      s := Ok;
      drawn := DrawBars(Default, magnitudes[..RENDER_BARS], W, H);
    }

    /** `RenderAudioSymmetric`: half-width bars mirrored about the middle, standing on the bottom. */
    method RenderAudioSymmetric(w: Handle, W: nat, H: nat) returns (s: Status, drawn: seq<Rect>)
      requires Valid()
      ensures w.Null? ==> s == InvalidArgument("No render window found in RenderAudioSymmetric()") && drawn == []
      ensures w.Live? ==> s == Ok && drawn == Render(Symmetric, magnitudes[..RENDER_BARS], W, H)
    {
      if w.Null? {
        return InvalidArgument("No render window found in RenderAudioSymmetric()"), [];
      }
      s := Ok;
      drawn := DrawBars(Symmetric, magnitudes[..RENDER_BARS], W, H);
    }

    /** `RenderAudioFourWaySym`: mirrored bars centred on the integer half height. */
    method RenderAudioFourWaySym(w: Handle, W: nat, H: nat) returns (s: Status, drawn: seq<Rect>)
      requires Valid()
      ensures w.Null? ==> s == InvalidArgument("No Render Window found in RenderAudioFourWaySym()") && drawn == []
      ensures w.Live? ==> s == Ok && drawn == Render(FourWay, magnitudes[..RENDER_BARS], W, H)
    {
      if w.Null? {
        return InvalidArgument("No Render Window found in RenderAudioFourWaySym()"), [];
      }
      s := Ok;
      drawn := DrawBars(FourWay, magnitudes[..RENDER_BARS], W, H);
    }

    /** The previous heights a smoothing pass starts from: zeros when none are stored yet. */
    function StartingHeights(): (p: seq<real>)
      reads this
      requires Valid()
      ensures |p| == HALF_SPECTRUM
    {
      if prevMagnitudes == [] then Zeros(HALF_SPECTRUM) else prevMagnitudes
    }

    /**
     * `RenderAudioWithSmoothing` with smoothing coefficient c: the first
     * RENDER_BARS bars are smoothed against the stored heights (passed
     * through on the first call), stored, and drawn as mirrored bars
     * centred on the window's half height; the magnitudes are then cleared.
     */
    method RenderAudioWithSmoothing(w: Handle, c: real, W: nat, H: nat) returns (s: Status, drawn: seq<Rect>)
      requires Valid()
      modifies this`prevMagnitudes, this`magnitudes
      ensures Valid()
      ensures w.Null? ==>
        s == InvalidArgument("No Render Window found in RenderAudioFourWaySym()") && drawn == [] &&
        prevMagnitudes == old(prevMagnitudes) && magnitudes == old(magnitudes)
      ensures w.Live? ==>
        s == Ok &&
        prevMagnitudes == SmoothPass(c, old(prevMagnitudes) == [], old(StartingHeights()), old(magnitudes), RENDER_BARS) &&
        drawn == Render(Centered, prevMagnitudes[..RENDER_BARS], W, H) &&
        magnitudes == Zeros(HALF_SPECTRUM)
    {
      if w.Null? {
        return InvalidArgument("No Render Window found in RenderAudioFourWaySym()"), [];
      }
      s := Ok;
      var first := false;
      if prevMagnitudes == [] {
        prevMagnitudes := Zeros(HALF_SPECTRUM);
        first := true;
      }
      prevMagnitudes, drawn := SmoothAndDrawBars(c, first, prevMagnitudes, magnitudes, W, H);
      magnitudes := Zeros(HALF_SPECTRUM);
    }

    /**
     * The loop of `RenderAudioWithSmoothing` over the first RENDER_BARS
     * bars: a bar without positive magnitude stores 0 and is skipped,
     * any other bar stores its smoothed height and is drawn at it.
     */
    static method SmoothAndDrawBars(c: real, first: bool, prev: seq<real>, mags: seq<real>, W: nat, H: nat)
      returns (p: seq<real>, drawn: seq<Rect>)
      requires RENDER_BARS <= |prev| && RENDER_BARS <= |mags|
      ensures p == SmoothPass(c, first, prev, mags, RENDER_BARS)
      ensures drawn == Render(Centered, p[..RENDER_BARS], W, H)
    {
      ghost var target := SmoothPass(c, first, prev, mags, RENDER_BARS);
      p := prev;
      drawn := [];
      var i := 0;
      while i < RENDER_BARS
        invariant 0 <= i <= RENDER_BARS
        invariant p == SmoothPass(c, first, prev, mags, i)
        invariant drawn == Render(Centered, target[..i], W, H)
      {
        SmoothPassStep(c, first, prev, mags, i);
        RenderExtend(Centered, target, i, W, H);
        assert p[i] == prev[i];
        if mags[i] <= 0.0 {
          p := p[i := 0.0];
        } else {
          var smoothedHeight := SmoothedHeight(c, first, p[i], mags[i]);
          assert target[i] == SmoothedOrZero(c, first, prev[i], mags[i]);
          drawn := drawn + BarRects(Centered, i, smoothedHeight, W, H);
          p := p[i := smoothedHeight];
        }
        i := i + 1;
      }
    }

    /** The height one bar is drawn at: its magnitude on the first pass or when rising, the blend with its stored height when falling. */
    static method SmoothedHeight(c: real, first: bool, prev: real, m: real) returns (h: real)
      ensures h == Smoothed(c, first, prev, m)
    {
      if !first {
        h := c * prev + (1.0 - c) * m;
        if h < m {
          h := m;
        }
      } else {
        h := m;
      }
    }

    /** The smoothing loop of `RenderAudioCurve`, over every bin, with its `<=` comparison. */
    static method SmoothHeights(c: real, first: bool, prev: seq<real>, mags: seq<real>) returns (hs: seq<real>)
      requires |prev| == |mags|
      ensures hs == SmoothPass(c, first, prev, mags, |mags|)
    {
      hs := Zeros(|mags|);
      var i := 0;
      while i < |mags|
        invariant 0 <= i <= |mags| && |hs| == |mags|
        invariant forall j :: 0 <= j < i ==> hs[j] == SmoothedOrZero(c, first, prev[j], mags[j])
      {
        if mags[i] <= 0.0 {
          hs := hs[i := 0.0];
        } else if !first {
          var h := c * prev[i] + (1.0 - c) * mags[i];
          if h <= mags[i] {
            h := mags[i];
          }
          hs := hs[i := h];
        } else {
          hs := hs[i := mags[i]];
        }
        i := i + 1;
      }
    }

    /**
     * `RenderAudioCurve` with its drawing loop kept from reading past the
     * heights: every bin is smoothed against the stored heights, each even
     * bin i with i + 2 inside the spectrum draws the curve through bins i,
     * i + 1 and i + 2 and its reflection, and every even bin's smoothed
     * height is stored.  The magnitudes are kept.
     */
    method RenderAudioCurve(w: Handle, c: real, W: nat, H: nat) returns (s: Status, drawn: seq<CurveDraw>)
      requires Valid()
      modifies this`prevMagnitudes
      ensures Valid()
      ensures w.Null? ==>
        s == InvalidArgument("No Render Window found in RenderAudioCurve()") && drawn == [] &&
        prevMagnitudes == old(prevMagnitudes)
      ensures w.Live? ==>
        var heights := SmoothPass(c, old(prevMagnitudes) == [], old(StartingHeights()), magnitudes, HALF_SPECTRUM);
        s == Ok &&
        drawn == CurveRender(heights, |SegmentStarts(HALF_SPECTRUM)|, W, H) &&
        prevMagnitudes == StoreEven(heights, old(StartingHeights()), HALF_SPECTRUM)
    {
      if w.Null? {
        return InvalidArgument("No Render Window found in RenderAudioCurve()"), [];
      }
      s := Ok;
      var first := false;
      if prevMagnitudes == [] {
        prevMagnitudes := Zeros(HALF_SPECTRUM);
        first := true;
      }
      var smoothedHeights := SmoothHeights(c, first, prevMagnitudes, magnitudes);
      prevMagnitudes, drawn := DrawCurveSegments(smoothedHeights, prevMagnitudes, W, H);
    }

    /**
     * The drawing loop of `RenderAudioCurve` over the even bins, bounded so
     * that i + 2 stays inside the heights; every even bin's height is stored.
     */
    static method DrawCurveSegments(hs: seq<real>, prev: seq<real>, W: nat, H: nat)
      returns (p: seq<real>, drawn: seq<CurveDraw>)
      requires |hs| == |prev| && |hs| % 2 == 0
      ensures p == StoreEven(hs, prev, |hs|)
      ensures drawn == CurveRender(hs, |SegmentStarts(|hs|)|, W, H)
    {
      p := prev;
      drawn := [];
      var i := 0;
      while i < |hs|
        invariant 0 <= i <= |hs| && i % 2 == 0
        invariant p == StoreEven(hs, prev, i)
        invariant drawn == CurveRender(hs, SegmentsBefore(|hs|, i), W, H)
      {
        CurveLoopStep(hs, i, W, H);
        StoreEvenStep(hs, prev, i);
        if i + 2 < |hs| {
          drawn := drawn + SegmentCurves(hs, i, W, H);
        }
        p := p[i := hs[i]];
        i := i + 2;
      }
      assert SegmentsBefore(|hs|, |hs|) == |SegmentStarts(|hs|)|;
    }
  }

  /** The stored heights once the drawing loop has passed bin i: the even bins below i take the smoothed heights. */
  function StoreEven(hs: seq<real>, prev: seq<real>, i: nat): (p: seq<real>)
    requires |hs| == |prev|
    ensures |p| == |prev|
    ensures forall j :: 0 <= j < |p| ==> p[j] == if j % 2 == 0 && j < i then hs[j] else prev[j]
  {
    seq(|prev|, j requires 0 <= j < |prev| => if j % 2 == 0 && j < i then hs[j] else prev[j])
  }

  lemma StoreEvenStep(hs: seq<real>, prev: seq<real>, i: nat)
    requires |hs| == |prev| && i % 2 == 0 && i < |hs|
    ensures StoreEven(hs, prev, i + 2) == StoreEven(hs, prev, i)[i := hs[i]]
  {
  }
}
