/**
  Classification of a tracking response. Both handlers test the decimal text
  of the status code against `/^(20[04]|30[12478])$/`, and anything else is a
  delivery anomaly reported on the tracker's `error` channel.
 */
module Status {
  import Decimal

  /** What an `error` listener receives: a status code, or a transport error's message. */
  datatype ErrorEvent = StatusError(code: nat) | TransportError(message: string)

  /** The statuses a tracking endpoint may answer with when it has recorded the hit. */
  const SuccessCodes: set<nat> := {200, 204, 301, 302, 304, 307, 308}

  /** The regular expression `/^(20[04]|30[12478])$/`. */
  predicate MatchesSuccessPattern(s: string)
  {
    && |s| == 3
    && ((s[0] == '2' && s[1] == '0' && (s[2] == '0' || s[2] == '4'))
        || (s[0] == '3' && s[1] == '0'
            && (s[2] == '1' || s[2] == '2' || s[2] == '4' || s[2] == '7' || s[2] == '8')))
  }

  /** `pattern.test(String(code))`. */
  predicate IsSuccess(code: nat)
  {
    MatchesSuccessPattern(Decimal.NatToString(code))
  }

  lemma DigitsValueOfThree(s: string)
    requires |s| == 3 && Decimal.AllDigits(s)
    ensures Decimal.DigitsValue(s) ==
      100 * Decimal.DigitValue(s[0]) + 10 * Decimal.DigitValue(s[1]) + Decimal.DigitValue(s[2])
  {
    var a, b := s[..1], s[..2];
    assert b[..|b| - 1] == a && b[|b| - 1] == s[1];
    assert a[..|a| - 1] == [] && a[|a| - 1] == s[0];
    assert s[..|s| - 1] == b;
    assert Decimal.DigitsValue(a) == Decimal.DigitValue(s[0]);
    assert Decimal.DigitsValue(b) == 10 * Decimal.DigitValue(s[0]) + Decimal.DigitValue(s[1]);
  }

  /** A three-digit code is written as its three digits. */
  lemma ThreeDigits(code: nat)
    requires 100 <= code < 1000
    ensures Decimal.NatToString(code) ==
      [Decimal.DigitChar(code / 100), Decimal.DigitChar(code / 10 % 10), Decimal.DigitChar(code % 10)]
  {
    assert Decimal.NatToString(code / 10 / 10) == [Decimal.DigitChar(code / 100)];
  }

  /** Whatever the pattern accepts is a listed code. */
  lemma SuccessIsListed(code: nat)
    requires IsSuccess(code)
    ensures code in SuccessCodes
  {
    var s := Decimal.NatToString(code);
    Decimal.NatToStringRoundTrip(code);
    DigitsValueOfThree(s);
  }

  /** Every listed code is accepted by the pattern. */
  lemma ListedIsSuccess(code: nat)
    requires code in SuccessCodes
    ensures IsSuccess(code)
  {
    ThreeDigits(code);
  }

  /** The pattern accepts exactly the seven listed status codes. */
  lemma SuccessIffListed(code: nat)
    ensures IsSuccess(code) <==> code in SuccessCodes
  {
    if IsSuccess(code) {
      SuccessIsListed(code);
    }
    if code in SuccessCodes {
      ListedIsSuccess(code);
    }
  }

  /**
    The errors index.ts's response handler emits: none for a zero (absent)
    status or a success, otherwise one carrying the status, provided that
    `error` listeners existed when the call started.
   */
  function StatusErrorsTs(code: nat, hadListeners: bool): (r: seq<ErrorEvent>)
    ensures r == [] || r == [StatusError(code)]
    ensures r != [] <==> code != 0 && code !in SuccessCodes && hadListeners
  {
    SuccessIffListed(code);
    if code != 0 && !IsSuccess(code) && hadListeners then [StatusError(code)] else []
  }

  /**
    The errors index.js's response handler emits: it has no guard for a zero
    status, so every status outside the success set is reported.
   */
  function StatusErrorsJs(code: nat, hadListeners: bool): (r: seq<ErrorEvent>)
    ensures r == [] || r == [StatusError(code)]
    ensures r != [] <==> code !in SuccessCodes && hadListeners
  {
    SuccessIffListed(code);
    if !IsSuccess(code) && hadListeners then [StatusError(code)] else []
  }

  /** The errors a transport failure causes: one carrying its message, if listeners existed. */
  function TransportErrors(message: string, hadListeners: bool): (r: seq<ErrorEvent>)
    ensures |r| == if hadListeners then 1 else 0
    ensures forall e :: e in r ==> e == TransportError(message)
  {
    if hadListeners then [TransportError(message)] else []
  }

  /** The two handlers differ only on a zero status, which index.js reports and index.ts ignores. */
  lemma StatusHandlersAgree(code: nat, hadListeners: bool)
    ensures code != 0 ==> StatusErrorsTs(code, hadListeners) == StatusErrorsJs(code, hadListeners)
    ensures StatusErrorsTs(0, hadListeners) == []
    ensures StatusErrorsJs(0, hadListeners) == if hadListeners then [StatusError(0)] else []
  {
  }

  /** The example of the test suite: a 404 is reported as 404, a 200 is not reported. */
  lemma NotFoundIsReported()
    ensures StatusErrorsTs(404, true) == [StatusError(404)]
    ensures StatusErrorsJs(404, true) == [StatusError(404)]
    ensures StatusErrorsTs(200, true) == [] && StatusErrorsJs(200, true) == []
    ensures StatusErrorsTs(404, false) == [] && StatusErrorsJs(404, false) == []
  {
  }
}
