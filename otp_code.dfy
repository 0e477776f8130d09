/** Formatting of the one-time code drawn by OTPService.GenerateOTP. */
module OtpCode {
  import opened Wrappers
  import opened Decimal

  /** The code length is fixed here; the configured OTP length is not consulted. */
  const CodeLength: nat := 6

  /** The draw is uniform below 10^6. */
  const CodeSpace: nat := 1000000

  /** The outcome of reading the system's random source: a number below `CodeSpace`, or a failure. */
  datatype Draw = Drawn(n: nat) | EntropyFailure

  predicate ValidDraw(d: Draw) {
    d.Drawn? ==> d.n < CodeSpace
  }

  datatype GenerateError = RandomSourceFailed

  /** `%06d` of the drawn number: six decimal digits, zero-padded, denoting `n`. */
  function FormatOtp(n: nat): (code: string)
    requires n < CodeSpace
    ensures |code| == CodeLength && AllDigits(code)
    ensures Parse(code) == n
  {
    assert Pow10(CodeLength) == CodeSpace;
    FormatPaddedFits(n, CodeLength);
    FormatPadded(n, CodeLength)
  }

  /** GenerateOTP: a random-source failure is an error, otherwise the formatted code. */
  function GenerateOTP(draw: Draw): (r: Result<string, GenerateError>)
    requires ValidDraw(draw)
    ensures r.Err? <==> draw.EntropyFailure?
    ensures r.Ok? ==> |r.value| == CodeLength && AllDigits(r.value) && Parse(r.value) == draw.n
  {
    match draw
    case EntropyFailure => Err(RandomSourceFailed)
    case Drawn(n) => Ok(FormatOtp(n))
  }

  /** Distinct draws give distinct codes, so every one of the 10^6 codes can occur. */
  lemma {:induction false} FormatOtpInjective(a: nat, b: nat)
    requires a < CodeSpace && b < CodeSpace
    requires FormatOtp(a) == FormatOtp(b)
    ensures a == b
  {
    assert Parse(FormatOtp(a)) == a;
  }

  /** Leading zeros are kept: 4213 is issued as "004213". */
  lemma {:induction false} LeadingZerosKept()
    ensures FormatOtp(4213) == "004213"
  {
    assert Format(4213) == "4213" by {
      assert Format(4) == "4";
      assert Format(42) == "42";
      assert Format(421) == "421";
    }
    assert Zeros(2) == "00";
  }
}
