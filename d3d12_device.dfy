/**
 * The Direct3D 12 device helpers (sources/Renderer/Direct3D12/D3D12Device.cpp):
 * creating the device with the first feature level the adapter accepts, and
 * searching the multisample count a render target can use.
 *
 * D3D12CreateDevice becomes a sequence of results, one per feature level
 * tried, and CheckFeatureSupport becomes a table of the (format, sample
 * count) pairs for which the check returns S_OK, with the number of quality
 * levels it reports.
 */
module D3D12Device {
  import opened Common

  /** A DXGI_FORMAT: UNKNOWN, or a format told apart by its enumerant. */
  datatype DxgiFormat = Unknown | KnownFormat(code: nat)

  /** DXGI_SAMPLE_DESC. */
  datatype SampleDesc = SampleDesc(count: u32, quality: u32)

  /** The (format, sample count) pairs CheckFeatureSupport answers with S_OK, and the NumQualityLevels it reports for each. */
  type QualityLevels = map<(DxgiFormat, u32), u32>

  /** A sample count the search accepts for a format: the check succeeds and reports at least one quality level. */
  predicate Qualifies(support: QualityLevels, format: DxgiFormat, count: u32) {
    (format, count) in support && support[(format, count)] > 0
  }

  /* ----- Single-format search ----- */

  /**
   * The sample description FindSuitableSampleDesc returns for one format:
   * the counts from `maxSampleCount` down to 2 in turn, the first that
   * qualifies with its highest quality level, else one sample.
   */
  function SuitableSampleDesc(support: QualityLevels, format: DxgiFormat, maxSampleCount: u32): (r: SampleDesc)
    ensures 1 <= r.count && (r.count == 1 || r.count <= maxSampleCount)
    decreases maxSampleCount
  {
    if maxSampleCount <= 1 then SampleDesc(1, 0)
    else if Qualifies(support, format, maxSampleCount) then
      SampleDesc(maxSampleCount, support[(format, maxSampleCount)] - 1)
    else SuitableSampleDesc(support, format, maxSampleCount - 1)
  }

  /**
   * The search finds the largest qualifying count: a result above one
   * qualifies, carries the highest quality level, and no larger count up to
   * the maximum qualifies; a result of one sample means no count in
   * `2..maxSampleCount` qualifies, and then the quality is 0.
   */
  lemma {:induction false} SuitableSampleDescIsLargest(support: QualityLevels, format: DxgiFormat, maxSampleCount: u32)
    ensures var r := SuitableSampleDesc(support, format, maxSampleCount);
      (r.count > 1 ==>
        r.count <= maxSampleCount && Qualifies(support, format, r.count) &&
        r.quality == support[(format, r.count)] - 1 &&
        forall c: u32 :: r.count < c <= maxSampleCount ==> !Qualifies(support, format, c)) &&
      (r.count == 1 ==> r.quality == 0 && forall c: u32 :: 1 < c <= maxSampleCount ==> !Qualifies(support, format, c))
    decreases maxSampleCount
  {
    if maxSampleCount > 1 && !Qualifies(support, format, maxSampleCount) {
      SuitableSampleDescIsLargest(support, format, maxSampleCount - 1);
    }
  }

  /** Any count that qualifies is a lower bound of the result. */
  lemma SuitableSampleDescAtLeast(support: QualityLevels, format: DxgiFormat, maxSampleCount: u32, c: u32)
    requires 1 < c <= maxSampleCount && Qualifies(support, format, c)
    ensures c <= SuitableSampleDesc(support, format, maxSampleCount).count
  {
    SuitableSampleDescIsLargest(support, format, maxSampleCount);
  }

  /** With a maximum of one sample or less, or with no qualifying count, the result is one sample at quality 0. */
  lemma SuitableSampleDescFallback(support: QualityLevels, format: DxgiFormat, maxSampleCount: u32)
    requires maxSampleCount <= 1 || forall c: u32 :: 1 < c <= maxSampleCount ==> !Qualifies(support, format, c)
    ensures SuitableSampleDesc(support, format, maxSampleCount) == SampleDesc(1, 0)
  {
    SuitableSampleDescIsLargest(support, format, maxSampleCount);
  }

  /**
   * FindSuitableSampleDesc for one format: count `maxSampleCount` down while
   * it is above one, and return the first count the feature check accepts.
   */
  method FindSuitableSampleDesc(support: QualityLevels, format: DxgiFormat, maxSampleCount: u32) returns (r: SampleDesc)
    ensures r == SuitableSampleDesc(support, format, maxSampleCount)
  {
    var count: u32 := maxSampleCount;
    while count > 1
      invariant count <= maxSampleCount
      invariant SuitableSampleDesc(support, format, count) == SuitableSampleDesc(support, format, maxSampleCount)
    {
      if (format, count) in support {
        var numQualityLevels := support[(format, count)];
        if numQualityLevels > 0 {
          return SampleDesc(count, numQualityLevels - 1);
        }
      }
      count := count - 1;
    }
    return SampleDesc(1, 0);
  }

  /* ----- Multi-format search ----- */

  /**
   * The sample description the multi-format FindSuitableSampleDesc returns:
   * starting from `{maxSampleCount, 0}`, every known format in turn searches
   * down from the count found so far; UNKNOWN entries are skipped.
   */
  function SampleDescForFormats(support: QualityLevels, formats: seq<DxgiFormat>, maxSampleCount: u32): SampleDesc
    decreases |formats|
  {
    if |formats| == 0 then SampleDesc(maxSampleCount, 0)
    else
      var before := SampleDescForFormats(support, formats[..|formats| - 1], maxSampleCount);
      var format := formats[|formats| - 1];
      if format == Unknown then before else SuitableSampleDesc(support, format, before.count)
  }

  /** The known formats of a list, in order. */
  function KnownFormats(formats: seq<DxgiFormat>): (r: seq<DxgiFormat>)
    ensures |r| <= |formats|
    ensures forall i :: 0 <= i < |r| ==> r[i] != Unknown
  {
    if |formats| == 0 then []
    else if formats[|formats| - 1] == Unknown then KnownFormats(formats[..|formats| - 1])
    else KnownFormats(formats[..|formats| - 1]) + [formats[|formats| - 1]]
  }

  /** UNKNOWN entries make no difference: the search over a list is the search over its known formats. */
  lemma {:induction false} UnknownFormatsSkipped(support: QualityLevels, formats: seq<DxgiFormat>, maxSampleCount: u32)
    ensures SampleDescForFormats(support, formats, maxSampleCount)
      == SampleDescForFormats(support, KnownFormats(formats), maxSampleCount)
    decreases |formats|
  {
    if |formats| != 0 {
      var init := formats[..|formats| - 1];
      UnknownFormatsSkipped(support, init, maxSampleCount);
      if formats[|formats| - 1] != Unknown {
        var known := KnownFormats(init) + [formats[|formats| - 1]];
        assert known[..|known| - 1] == KnownFormats(init);
      }
    }
  }

  /** With no known format at all the result is `{maxSampleCount, 0}`. */
  lemma NoKnownFormats(support: QualityLevels, formats: seq<DxgiFormat>, maxSampleCount: u32)
    requires forall i :: 0 <= i < |formats| ==> formats[i] == Unknown
    ensures SampleDescForFormats(support, formats, maxSampleCount) == SampleDesc(maxSampleCount, 0)
  {
    UnknownFormatsSkipped(support, formats, maxSampleCount);
    KnownFormatsEmpty(formats);
  }

  lemma {:induction false} KnownFormatsEmpty(formats: seq<DxgiFormat>)
    requires forall i :: 0 <= i < |formats| ==> formats[i] == Unknown
    ensures KnownFormats(formats) == []
    decreases |formats|
  {
    if |formats| != 0 {
      KnownFormatsEmpty(formats[..|formats| - 1]);
    }
  }

  /**
   * The count is threaded through the formats: a longer prefix never has a
   * larger count than a shorter one (above one sample), so the result never
   * exceeds `maxSampleCount` unless the maximum itself is below one sample.
   */
  lemma {:induction false} SampleCountNonIncreasing(support: QualityLevels, formats: seq<DxgiFormat>, maxSampleCount: u32, i: nat)
    requires i <= |formats|
    ensures SampleDescForFormats(support, formats, maxSampleCount).count
      <= Max(1, SampleDescForFormats(support, formats[..i], maxSampleCount).count)
    decreases |formats|
  {
    if i < |formats| {
      var init := formats[..|formats| - 1];
      assert init[..i] == formats[..i];
      SampleCountNonIncreasing(support, init, maxSampleCount, i);
    } else {
      assert formats[..i] == formats;
    }
  }

  lemma SampleCountAtMostMax(support: QualityLevels, formats: seq<DxgiFormat>, maxSampleCount: u32)
    ensures SampleDescForFormats(support, formats, maxSampleCount).count <= Max(1, maxSampleCount)
  {
    SampleCountNonIncreasing(support, formats, maxSampleCount, 0);
  }

  /**
   * A result above one sample qualifies for the last known format; earlier
   * formats are not checked again at the final count.
   */
  lemma {:induction false} ResultQualifiesForLastKnownFormat(support: QualityLevels, formats: seq<DxgiFormat>, maxSampleCount: u32, last: nat)
    requires last < |formats| && formats[last] != Unknown
    requires forall j :: last < j < |formats| ==> formats[j] == Unknown
    ensures var r := SampleDescForFormats(support, formats, maxSampleCount);
      r.count > 1 ==> Qualifies(support, formats[last], r.count) && r.quality == support[(formats[last], r.count)] - 1
    decreases |formats|
  {
    var before := SampleDescForFormats(support, formats[..last], maxSampleCount);
    SuitableSampleDescIsLargest(support, formats[last], before.count);
    if last < |formats| - 1 {
      var init := formats[..|formats| - 1];
      ResultQualifiesForLastKnownFormat(support, init, maxSampleCount, last);
      assert init[..last] == formats[..last];
    } else {
      assert formats[..|formats| - 1] == formats[..last];
    }
  }

  /**
   * An earlier format that qualified at a larger count need not qualify at
   * the final one: with 4 samples for the first format missing and only 4
   * for the second, the result is 4.
   */
  lemma EarlierFormatNotRechecked()
    ensures var a := KnownFormat(1);
      var b := KnownFormat(2);
      var support: QualityLevels := map[(a, 8) := 1, (a, 2) := 1, (b, 4) := 1];
      SampleDescForFormats(support, [a, b], 8) == SampleDesc(4, 0) && !Qualifies(support, a, 4)
  {
    var a := KnownFormat(1);
    var b := KnownFormat(2);
    var support: QualityLevels := map[(a, 8) := 1, (a, 2) := 1, (b, 4) := 1];
    assert [a, b][..1] == [a] && [a][..0] == [];
    assert SampleDescForFormats(support, [a], 8) == SuitableSampleDesc(support, a, 8) == SampleDesc(8, 0);
    assert SuitableSampleDesc(support, b, 4) == SampleDesc(4, 0);
    assert SuitableSampleDesc(support, b, 5) == SampleDesc(4, 0);
    assert SuitableSampleDesc(support, b, 6) == SampleDesc(4, 0);
    assert SuitableSampleDesc(support, b, 7) == SampleDesc(4, 0);
    assert SuitableSampleDesc(support, b, 8) == SampleDesc(4, 0);
  }

  /** FindSuitableSampleDesc for several formats: the count found so far is the maximum for the next known format. */
  method FindSuitableSampleDescForFormats(support: QualityLevels, formats: seq<DxgiFormat>, maxSampleCount: u32) returns (r: SampleDesc)
    ensures r == SampleDescForFormats(support, formats, maxSampleCount)
  {
    r := SampleDesc(maxSampleCount, 0);
    var i := 0;
    while i < |formats|
      invariant i <= |formats|
      invariant r == SampleDescForFormats(support, formats[..i], maxSampleCount)
    {
      assert formats[..i + 1][..i] == formats[..i];
      if formats[i] != Unknown {
        r := FindSuitableSampleDesc(support, formats[i], r.count);
      }
      i := i + 1;
    }
    assert formats[..i] == formats;
  }

  /* ----- Device creation ----- */

  /** A D3D_FEATURE_LEVEL, by its enumerant. */
  datatype FeatureLevel = FeatureLevel(code: nat)

  /** An HRESULT; SUCCEEDED means not negative. */
  type HResult = x: int | -0x8000_0000 <= x < 0x8000_0000

  const S_OK: HResult := 0

  predicate Succeeded(hr: HResult) {
    hr >= 0
  }

  /** The index of the first successful attempt: the list scan over the successful results that occur in `attempts`. */
  function FirstSuccess(attempts: seq<HResult>): (r: Option<nat>)
    ensures r.None? <==> forall i :: 0 <= i < |attempts| ==> !Succeeded(attempts[i])
    ensures r.Some? ==> r.value < |attempts| && Succeeded(attempts[r.value])
    ensures r.Some? ==> forall j :: 0 <= j < r.value ==> !Succeeded(attempts[j])
  {
    FirstIn(attempts, set h | h in attempts && Succeeded(h))
  }

  /** D3D12Device: the device object and the feature level it was created with. */
  class Device {
    /** The feature level of the created device, if one was created. */
    var device: Option<FeatureLevel>
    var featureLevel: FeatureLevel
    /** The feature levels passed to D3D12CreateDevice, in order. */
    var creationAttempts: seq<FeatureLevel>

    constructor()
      ensures device.None? && creationAttempts == []
    {
      device := None;
      featureLevel := FeatureLevel(0);
      creationAttempts := [];
    }

    /**
     * CreateDXDevice: `attempts[i]` is what D3D12CreateDevice returns for
     * `featureLevels[i]`.  The levels are tried in order until one
     * succeeds; that level is stored.  The result is that of the last
     * attempt, S_OK when there is none.
     */
    method CreateDXDevice(featureLevels: seq<FeatureLevel>, attempts: seq<HResult>) returns (hr: HResult)
      requires |attempts| == |featureLevels|
      modifies this`device, this`featureLevel, this`creationAttempts
      ensures match FirstSuccess(attempts)
        case Some(i) =>
          hr == attempts[i] && featureLevel == featureLevels[i] && device == Some(featureLevels[i]) &&
          creationAttempts == old(creationAttempts) + featureLevels[..i + 1]
        case None =>
          hr == (if |attempts| == 0 then S_OK else attempts[|attempts| - 1]) &&
          featureLevel == old(featureLevel) &&
          device == (if |attempts| == 0 then old(device) else None) &&
          creationAttempts == old(creationAttempts) + featureLevels
    {
      hr := S_OK;
      var i := 0;
      while i < |featureLevels|
        invariant i <= |featureLevels|
        invariant forall j :: 0 <= j < i ==> !Succeeded(attempts[j])
        invariant featureLevel == old(featureLevel)
        invariant creationAttempts == old(creationAttempts) + featureLevels[..i]
        invariant i == 0 ==> hr == S_OK && device == old(device)
        invariant i > 0 ==> hr == attempts[i - 1] && device.None?
      {
        hr := attempts[i];
        creationAttempts := creationAttempts + [featureLevels[i]];
        assert creationAttempts == old(creationAttempts) + featureLevels[..i + 1];
        if Succeeded(hr) {
          device := Some(featureLevels[i]);
          featureLevel := featureLevels[i];
          FirstSuccessIs(attempts, i);
          return;
        }
        device := None;
        i := i + 1;
      }
      assert featureLevels[..i] == featureLevels;
    }
  }

  /** An attempt that succeeds after failures only is the first success. */
  lemma FirstSuccessIs(attempts: seq<HResult>, i: nat)
    requires i < |attempts| && Succeeded(attempts[i])
    requires forall j :: 0 <= j < i ==> !Succeeded(attempts[j])
    ensures FirstSuccess(attempts) == Some(i)
  {
  }
}
