/**
 * The audio test screen (src/hud/pages/test-audio.ts): it turns the
 * glasses' microphone on, turns every PCM frame into a volume percentage,
 * smooths it and draws it as a 24-cell bar, at most once per 120 ms unless
 * forced.
 */
module TestAudioPage {
  import opened Wrappers
  import opened HudTypes
  import opened Base
  import opened Text

  const AUDIO_CONTAINER_ID: int := 1
  const BAR_TOTAL: nat := 24
  const DRAW_INTERVAL_MS: int := 120
  const FULL_SCALE: int := 32768

  // ---------------------------------------------------------------------
  // Volume of one frame (calculateVolumePercent)
  // ---------------------------------------------------------------------

  /** One little-endian signed 16-bit sample from its two bytes. */
  function Sample(lo: Byte, hi: Byte): (v: int)
    ensures -FULL_SCALE <= v < FULL_SCALE
    ensures (v + 0x10000) % 0x10000 == lo + 256 * hi
  {
    var raw: int := lo as int + 256 * (hi as int);
    if raw >= 0x8000 then raw - 0x10000 else raw
  }

  /** The samples of a frame: one per whole pair of bytes; an odd last byte
      is ignored. */
  function Samples(pcm: seq<Byte>): (s: seq<int>)
    ensures |s| == |pcm| / 2
    ensures forall i :: 0 <= i < |s| ==> s[i] == Sample(pcm[2 * i], pcm[2 * i + 1])
  {
    seq(|pcm| / 2, i requires 0 <= i < |pcm| / 2 => Sample(pcm[2 * i], pcm[2 * i + 1]))
  }

  function Square(x: int): int {
    x * x
  }

  function SquareSumOf(samples: seq<int>): int {
    if samples == [] then 0
    else SquareSumOf(samples[..|samples| - 1]) + Square(samples[|samples| - 1])
  }

  /** Whether the rounded percentage `Math.round(100 * rms / 32768)` is at
      least `k` (k >= 1), where rms = sqrt(squareSum / sampleCount): squared
      out, 200 * rms >= (2k - 1) * 32768. */
  predicate Reaches(k: int, squareSum: int, sampleCount: int) {
    Square(2 * k - 1) * (FULL_SCALE * FULL_SCALE) * sampleCount <= 40000 * squareSum
  }

  /** The highest level in 1..k reached, or 0. */
  function HighestReached(k: nat, squareSum: int, sampleCount: int): (r: nat)
    ensures r <= k
    ensures r > 0 ==> Reaches(r, squareSum, sampleCount)
    ensures forall j :: r < j <= k ==> !Reaches(j, squareSum, sampleCount)
  {
    if k == 0 then 0
    else if Reaches(k, squareSum, sampleCount) then k
    else HighestReached(k - 1, squareSum, sampleCount)
  }

  /** The frame's volume percentage, capped at 100 as `Math.min(1, …)` does. */
  function VolumePercent(squareSum: int, sampleCount: int): (r: nat)
    ensures r <= 100
  {
    HighestReached(100, squareSum, sampleCount)
  }

  /** A louder frame never reads lower. */
  lemma VolumeMonotone(s1: int, s2: int, sampleCount: int)
    requires s1 <= s2
    ensures VolumePercent(s1, sampleCount) <= VolumePercent(s2, sampleCount)
  {
    var r1 := VolumePercent(s1, sampleCount);
    if r1 > 0 {
      assert Reaches(r1, s1, sampleCount);
      assert Reaches(r1, s2, sampleCount);
    }
  }

  lemma {:induction false} NothingReachedInSilence(k: nat, sampleCount: int)
    requires sampleCount >= 1
    ensures HighestReached(k, 0, sampleCount) == 0
  {
    if k > 0 {
      var d := 2 * k - 1;
      assert Square(d) >= 1 by {
        assert Square(d) == d * d;
        assert d * d >= d * 1;
      }
      var c := Square(d) * (FULL_SCALE * FULL_SCALE);
      assert c >= 1;
      assert c * sampleCount >= sampleCount by {
        assert c * sampleCount == (c - 1) * sampleCount + sampleCount;
        assert (c - 1) * sampleCount >= 0;
      }
      assert !Reaches(k, 0, sampleCount);
      NothingReachedInSilence(k - 1, sampleCount);
    }
  }

  lemma {:induction false} SilentSamples(pcm: seq<Byte>, n: nat)
    requires n <= |pcm| / 2
    requires forall i :: 0 <= i < |pcm| ==> pcm[i] == 0
    ensures SquareSumOf(Samples(pcm)[..n]) == 0
  {
    if n > 0 {
      SilentSamples(pcm, n - 1);
      assert Samples(pcm)[..n][..n - 1] == Samples(pcm)[..n - 1];
    }
  }

  /** A frame of zero bytes reads as volume 0. */
  lemma SilenceReadsZero(pcm: seq<Byte>)
    requires |pcm| >= 2
    requires forall i :: 0 <= i < |pcm| ==> pcm[i] == 0
    ensures VolumePercent(SquareSumOf(Samples(pcm)), |pcm| / 2) == 0
  {
    SilentSamples(pcm, |pcm| / 2);
    assert Samples(pcm)[..|pcm| / 2] == Samples(pcm);
    NothingReachedInSilence(100, |pcm| / 2);
  }

  /** The loop of calculateVolumePercent: the sum of the squared samples. */
  method SquareSum(pcm: seq<Byte>) returns (squareSum: int)
    ensures squareSum == SquareSumOf(Samples(pcm))
  {
    var sampleCount := |pcm| / 2;
    squareSum := 0;
    var i := 0;
    ghost var k := 0;
    while i < sampleCount * 2
      invariant i == 2 * k && 0 <= k <= sampleCount
      invariant squareSum == SquareSumOf(Samples(pcm)[..k])
    {
      var sample: int := pcm[i] as int + 256 * (pcm[i + 1] as int);
      if sample >= 0x8000 {
        sample := sample - 0x10000;
      }
      assert sample == Samples(pcm)[k];
      assert Samples(pcm)[..k + 1][..k] == Samples(pcm)[..k];
      squareSum := squareSum + sample * sample;
      i := i + 2;
      k := k + 1;
    }
    assert Samples(pcm)[..k] == Samples(pcm);
  }

  /** calculateVolumePercent: no whole sample reads 0. */
  method CalculateVolumePercent(pcm: seq<Byte>) returns (percent: nat)
    ensures percent <= 100
    ensures |pcm| < 2 ==> percent == 0
    ensures |pcm| >= 2 ==> percent == VolumePercent(SquareSumOf(Samples(pcm)), |pcm| / 2)
  {
    var sampleCount := |pcm| / 2;
    if sampleCount <= 0 {
      return 0;
    }
    var squareSum := SquareSum(pcm);
    percent := VolumePercent(squareSum, sampleCount);
  }

  // ---------------------------------------------------------------------
  // Smoothing and drawing
  // ---------------------------------------------------------------------

  /** `Math.round(previous * 0.75 + instant * 0.25)`, exact on integers: the
      rounding of a quarter-step value, halves going up. */
  function Smooth(previous: int, instant: int): (r: int)
    ensures 4 * r - 2 <= 3 * previous + instant < 4 * r + 2
    ensures previous <= instant ==> previous <= r <= instant
    ensures instant <= previous ==> instant <= r <= previous
  {
    (3 * previous + instant + 2) / 4
  }

  /** The level shown: the smoothed volume clamped to 0..100. */
  function Level(volume: int): (level: nat)
    ensures level <= 100
    ensures 0 <= volume <= 100 ==> level == volume
    ensures volume < 0 ==> level == 0
    ensures volume > 100 ==> level == 100
  {
    if volume < 0 then 0 else if volume > 100 then 100 else volume
  }

  /** `Math.round(level / 100 * 24)`: the cells filled, the nearest whole
      number to 24 * level / 100 (never a tie for whole levels). */
  function BarFill(level: nat): (n: nat)
    requires level <= 100
    ensures n <= BAR_TOTAL
    ensures -50 <= 100 * n - BAR_TOTAL * level < 50
  {
    (BAR_TOTAL * level + 50) / 100
  }

  /** A higher level never fills fewer cells. */
  lemma BarFillMonotone(a: nat, b: nat)
    requires a <= b <= 100
    ensures BarFill(a) <= BarFill(b)
  {
  }

  /** The bar: `n` heavy cells then light ones, 24 cells in all. */
  function Bar(level: nat): (bar: string)
    requires level <= 100
    ensures |bar| == BAR_TOTAL
    ensures forall i :: 0 <= i < BarFill(level) ==> bar[i] == '━'
    ensures forall i :: BarFill(level) <= i < BAR_TOTAL ==> bar[i] == '─'
  {
    var n := BarFill(level);
    Repeat('━', n) + Repeat('─', BAR_TOTAL - n)
  }

  function MicLine(micEnabled: bool): string {
    if micEnabled then "mic: ON (tap=OFF)" else "mic: OFF (tap=ON)"
  }

  /** The five lines composeContent joins. */
  function ContentLines(micEnabled: bool, smoothedVolume: int): (lines: seq<string>)
    ensures |lines| == 5
    ensures lines[0] == "audio monitor"
    ensures lines[1] == MicLine(micEnabled)
    ensures lines[2] == "volume: " + NatToString(Level(smoothedVolume))
    ensures lines[3] == Bar(Level(smoothedVolume))
    ensures lines[4] == "double tap: back"
  {
    var level := Level(smoothedVolume);
    ["audio monitor", MicLine(micEnabled), "volume: " + NatToString(level), Bar(level), "double tap: back"]
  }

  function ComposeContent(micEnabled: bool, smoothedVolume: int): string {
    Join(ContentLines(micEnabled, smoothedVolume), "\n")
  }

  /** render, for a microphone flag and a smoothed volume: one full-screen
      text container showing the monitor. */
  function AudioDescription(micEnabled: bool, smoothedVolume: int): (d: RenderDescription)
    ensures WellFormed(d) && d.containerTotalNum == 1
    ensures |d.textObject| == 1 && d.imageObject == [] && d.listObject == []
    ensures d.textObject[0].containerID == AUDIO_CONTAINER_ID && d.textObject[0].isEventCapture == 1
    ensures d.textObject[0].content == ComposeContent(micEnabled, smoothedVolume)
    ensures d.textObject[0].width == GLASS_SCREEN_WIDTH && d.textObject[0].height == GLASS_SCREEN_HEIGHT
  {
    RenderDescription(1,
      [TextContainer(0, 0, GLASS_SCREEN_WIDTH, GLASS_SCREEN_HEIGHT, 1, 13, 5,
         AUDIO_CONTAINER_ID, "test-audio", ComposeContent(micEnabled, smoothedVolume), 1)],
      [], [])
  }

  class TestAudio {
    const base: BasePage
    var micEnabled: bool
    var smoothedVolume: int
    var lastDrawAt: int

    constructor()
      ensures !micEnabled && smoothedVolume == 0 && lastDrawAt == 0
      ensures fresh(base) && base.loadPage.None? && base.bridge == null
    {
      base := new BasePage();
      micEnabled := false;
      smoothedVolume := 0;
      lastDrawAt := 0;
    }

    /** The smoothed volume stays a percentage. */
    predicate Valid()
      reads this
    {
      0 <= smoothedVolume <= 100
    }

    /** render: the monitor as it is now. */
    function Render(): RenderDescription
      reads this
    {
      AudioDescription(micEnabled, smoothedVolume)
    }

    /** setMicEnabled: the flag follows the request, and falls back to off
        when the audio-control call throws (`completed` is false); whatever
        the call resolves to is ignored; nothing at all without a bridge. */
    method SetMicEnabled(enabled: bool, completed: bool)
      modifies this, base.bridge
      ensures base.bridge == null ==> unchanged(this)
      ensures base.bridge != null ==>
        && micEnabled == (enabled && completed)
        && base.bridge.calls == old(base.bridge.calls) + [AudioControl(enabled)]
      ensures smoothedVolume == old(smoothedVolume) && lastDrawAt == old(lastDrawAt)
    {
      if base.bridge == null {
        return;
      }
      micEnabled := enabled;
      base.bridge.Call(AudioControl(enabled));
      if !completed {
        micEnabled := false;
      }
    }

    /** updateDisplay: redraw unless unforced and less than 120 ms since the
        last drawing. */
    method UpdateDisplay(force: bool, now: int)
      modifies this, base.bridge
      ensures micEnabled == old(micEnabled) && smoothedVolume == old(smoothedVolume)
      ensures base.bridge == null || (!force && now - old(lastDrawAt) < DRAW_INTERVAL_MS) ==>
        unchanged(this) && (base.bridge != null ==> base.bridge.calls == old(base.bridge.calls))
      ensures base.bridge != null && (force || now - old(lastDrawAt) >= DRAW_INTERVAL_MS) ==>
        && lastDrawAt == now
        && base.bridge.calls == old(base.bridge.calls)
             + [TextContainerUpgrade(AUDIO_CONTAINER_ID, ComposeContent(micEnabled, smoothedVolume))]
    {
      if base.bridge == null {
        return;
      }
      if !force && now - lastDrawAt < DRAW_INTERVAL_MS {
        return;
      }
      lastDrawAt := now;
      base.bridge.Call(TextContainerUpgrade(AUDIO_CONTAINER_ID, ComposeContent(micEnabled, smoothedVolume)));
    }

    /** onAudio: frames shorter than one sample are ignored; otherwise the
        frame's volume is blended into the smoothed volume, which stays a
        percentage, and the display is redrawn if due. */
    method OnAudio(event: AudioEventPayload, env: Env)
      requires Valid()
      modifies this, base.bridge
      ensures Valid()
      ensures micEnabled == old(micEnabled)
      ensures base.bridge == null ==> lastDrawAt == old(lastDrawAt)
      ensures |event.audioPcm| < 2 ==> unchanged(this) && (base.bridge != null ==> base.bridge.calls == old(base.bridge.calls))
      ensures |event.audioPcm| >= 2 ==>
        smoothedVolume == Smooth(old(smoothedVolume), VolumePercent(SquareSumOf(Samples(event.audioPcm)), |event.audioPcm| / 2))
      ensures |event.audioPcm| >= 2 && base.bridge != null ==>
        if env.now - old(lastDrawAt) >= DRAW_INTERVAL_MS
        then lastDrawAt == env.now && base.bridge.calls == old(base.bridge.calls)
               + [TextContainerUpgrade(AUDIO_CONTAINER_ID, ComposeContent(micEnabled, smoothedVolume))]
        else lastDrawAt == old(lastDrawAt) && base.bridge.calls == old(base.bridge.calls)
    {
      var pcm := event.audioPcm;
      if |pcm| < 2 {
        return;
      }
      var instant := CalculateVolumePercent(pcm);
      smoothedVolume := Smooth(smoothedVolume, instant);
      UpdateDisplay(false, env.now);
    }

    /** onClick (toggleMic): flip the microphone, then redraw at once. */
    method OnClick(event: SysItemEvent, env: Env)
      modifies this, base.bridge
      ensures smoothedVolume == old(smoothedVolume)
      ensures base.bridge == null ==> unchanged(this)
      ensures base.bridge != null ==>
        && micEnabled == (!old(micEnabled) && env.audioControlOk)
        && lastDrawAt == env.now
        && base.bridge.calls == old(base.bridge.calls)
             + [AudioControl(!old(micEnabled)), TextContainerUpgrade(AUDIO_CONTAINER_ID, ComposeContent(micEnabled, smoothedVolume))]
    {
      SetMicEnabled(!micEnabled, env.audioControlOk);
      UpdateDisplay(true, env.now);
    }

    /** onDoubleClick (exitToList): microphone off, then ask for the list. */
    method OnDoubleClick(event: SysItemEvent, env: Env) returns (request: Option<PageRequest>)
      modifies this, base.bridge
      ensures request == base.Request(TestListRequest)
      ensures !old(micEnabled) || base.bridge != null ==> !micEnabled
      ensures base.bridge == null ==> micEnabled == old(micEnabled)
      ensures base.bridge != null ==> base.bridge.calls == old(base.bridge.calls) + [AudioControl(false)]
      ensures smoothedVolume == old(smoothedVolume) && lastDrawAt == old(lastDrawAt)
    {
      SetMicEnabled(false, env.audioControlOk);
      request := base.Request(TestListRequest);
    }

    /** afterRender: microphone on, then draw at once. */
    method AfterRender(env: Env)
      modifies this, base.bridge
      ensures smoothedVolume == old(smoothedVolume)
      ensures base.bridge == null ==> unchanged(this)
      ensures base.bridge != null ==>
        && micEnabled == env.audioControlOk
        && lastDrawAt == env.now
        && base.bridge.calls == old(base.bridge.calls)
             + [AudioControl(true), TextContainerUpgrade(AUDIO_CONTAINER_ID, ComposeContent(micEnabled, smoothedVolume))]
    {
      SetMicEnabled(true, env.audioControlOk);
      UpdateDisplay(true, env.now);
    }
  }
}
