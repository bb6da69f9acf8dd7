/** The compliance gate: the diagnostic result record, the image safety check and the evidence check. */
module Compliance {
  import opened Wrappers

  /** A diagnosis with its probability, confidence interval and (optional) citation. */
  datatype DiagnosticResult = DiagnosticResult(
    diagnosis: string,
    probability: real,
    confidenceInterval: (real, real),
    citationSource: Option<string> := None)

  datatype SafetyReason = LowResolution(rows: int, columns: int) | LowSnr(snrDb: real)

  /** The two failure kinds of the gate (SafetyException and EvidenceException). */
  datatype Failure = SafetyException(reason: SafetyReason) | EvidenceException(diagnosis: string)

  /**
   * What the gate reads of an image array: its shape and the mean and
   * standard deviation of its pixels.
   */
  datatype Image = Image(rows: int, columns: int, signal: real, noise: real)

  const MinSnrThreshold: real := 15.0
  const MinResolution: (int, int) := (1024, 1024)
  const NoiseFloor: real := 0.00001

  /** The standard deviation with zero replaced by the floor 1e-5. */
  function FlooredNoise(noise: real): (r: real)
    ensures r != 0.0
    ensures noise != 0.0 ==> r == noise
    ensures noise == 0.0 ==> r == NoiseFloor
  {
    if noise == 0.0 then NoiseFloor else noise
  }

  /**
   * Rejects an image below 1024x1024, then one whose SNR is below 15 dB.
   * `snrDb(signal, noise)` stands for 20*log10(signal/noise).
   */
  function CheckImageSafety(image: Image, snrDb: (real, real) -> real): (r: Outcome<Failure>)
    ensures image.rows < MinResolution.0 || image.columns < MinResolution.1 ==>
      r == Fail(SafetyException(LowResolution(image.rows, image.columns)))
    ensures r.Pass? <==>
      && image.rows >= MinResolution.0
      && image.columns >= MinResolution.1
      && snrDb(image.signal, FlooredNoise(image.noise)) >= MinSnrThreshold
    ensures r.Fail? ==> r.error.SafetyException?
  {
    if image.rows < MinResolution.0 || image.columns < MinResolution.1 then
      Fail(SafetyException(LowResolution(image.rows, image.columns)))
    else
      var snr := snrDb(image.signal, FlooredNoise(image.noise));
      if snr < MinSnrThreshold then Fail(SafetyException(LowSnr(snr))) else Pass
  }

  /** The SNR is only ever formed with a non-zero noise: two SNR functions that agree there give the same verdict. */
  lemma {:induction false} SnrNeverSeesZeroNoise(image: Image, f: (real, real) -> real, g: (real, real) -> real)
    requires forall s, n :: n != 0.0 ==> f(s, n) == g(s, n)
    ensures CheckImageSafety(image, f) == CheckImageSafety(image, g)
  {
    assert f(image.signal, FlooredNoise(image.noise)) == g(image.signal, FlooredNoise(image.noise));
  }

  /** The resolution check comes first: a small image is rejected whatever its SNR. */
  lemma ResolutionBeforeSnr(image: Image, f: (real, real) -> real, g: (real, real) -> real)
    requires image.rows < 1024 || image.columns < 1024
    ensures CheckImageSafety(image, f) == CheckImageSafety(image, g)
    ensures CheckImageSafety(image, f).Fail?
  {
  }

  /** Fails exactly when the citation is absent or empty; the probability is only advisory. */
  function ValidateInference(result: DiagnosticResult): (r: Outcome<Failure>)
    ensures r.Fail? <==> result.citationSource.None? || result.citationSource.value == ""
    ensures r.Fail? ==> r.error == EvidenceException(result.diagnosis)
  {
    if result.citationSource.None? || result.citationSource.value == "" then
      Fail(EvidenceException(result.diagnosis))
    else
      // A probability above 0.99 or below 0.01 is only advisory: it never fails the gate.
      Pass
  }

  /** The verdict does not depend on the probability, not even outside [0.01, 0.99]. */
  lemma ProbabilityNeverFailsValidation(result: DiagnosticResult, p: real)
    ensures ValidateInference(result.(probability := p)) == ValidateInference(result)
  {
  }

  /** A result whose citation has been cleared is rejected. */
  lemma ClearedCitationRejected(result: DiagnosticResult)
    ensures ValidateInference(result.(citationSource := None)) == Fail(EvidenceException(result.diagnosis))
  {
  }
}
