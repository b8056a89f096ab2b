/**
 * The app scanner page: the validation of the entered URL, the page state
 * around the call to the analysis function, and the colour bands of the
 * safety score it shows.
 *
 * zod's `.url()` check is a parameter (`isValidUrl`). The other two rules are
 * modelled, and so is the order of the issues they report. The call itself
 * is split as the page's `await` splits it: `ScanApp` runs up to the request,
 * `ScanFinished` runs the rest with the call's outcome.
 */
module AppScanner {
  import opened Wrappers
  import opened JsString

  const MaxUrlLength: nat := 2048

  const NotUrlMessage: string := "Please enter a valid URL"
  const TooLongMessage: string := "URL must be less than 2048 characters"
  const SchemeMessage: string := "URL must start with http:// or https://"
  const FallbackMessage: string := "Invalid URL"
  const InvalidUrlTitle: string := "Invalid URL"
  const FailedMessage: string := "Failed to analyze the app. Please try again."

  /** The scheme rule of the `refine` step. */
  predicate HasWebScheme(u: string) {
    StartsWith(u, "http://") || StartsWith(u, "https://")
  }

  /**
   * The issues `urlSchema` reports for `u`, in zod's order: the string checks
   * (`url`, then `max`) do not stop parsing, so the refinement runs as well.
   */
  function UrlIssues(u: string, isValidUrl: string -> bool): (issues: seq<string>)
    ensures |issues| <= 3
    ensures issues == [] <==> isValidUrl(u) && Utf16Length(u) <= MaxUrlLength && HasWebScheme(u)
  {
    (if isValidUrl(u) then [] else [NotUrlMessage])
    + (if Utf16Length(u) <= MaxUrlLength then [] else [TooLongMessage])
    + (if HasWebScheme(u) then [] else [SchemeMessage])
  }

  /** Each rule that fails contributes its own message, and only those messages appear. */
  lemma UrlIssuesListed(u: string, isValidUrl: string -> bool)
    ensures forall m :: m in UrlIssues(u, isValidUrl) <==>
              || (m == NotUrlMessage && !isValidUrl(u))
              || (m == TooLongMessage && Utf16Length(u) > MaxUrlLength)
              || (m == SchemeMessage && !HasWebScheme(u))
  {
  }

  /** `errors[0]?.message || "Invalid URL"`, or `None` when the URL passes. */
  function ValidationError(u: string, isValidUrl: string -> bool): (r: Option<string>)
    ensures r.None? <==> isValidUrl(u) && Utf16Length(u) <= MaxUrlLength && HasWebScheme(u)
    ensures r.Some? ==> r.value in UrlIssues(u, isValidUrl)
  {
    var issues := UrlIssues(u, isValidUrl);
    if issues == [] then None
    else if issues[0] != "" then Some(issues[0])
    else Some(FallbackMessage)
  }

  /** Every issue carries its own message, so the fallback is never shown. */
  lemma FallbackNeverShown(u: string, isValidUrl: string -> bool)
    ensures ValidationError(u, isValidUrl) != Some(FallbackMessage)
  {
    var issues := UrlIssues(u, isValidUrl);
    UrlIssuesListed(u, isValidUrl);
    if issues != [] {
      assert issues[0] in issues;
      assert NotUrlMessage != FallbackMessage && TooLongMessage != FallbackMessage;
    }
  }

  /** A URL the syntax check accepts is still refused without a web scheme. */
  lemma SchemeChecked(u: string, isValidUrl: string -> bool)
    requires !HasWebScheme(u)
    ensures ValidationError(u, isValidUrl).Some?
    ensures isValidUrl(u) && Utf16Length(u) <= MaxUrlLength ==>
              ValidationError(u, isValidUrl) == Some(SchemeMessage)
  {
  }

  datatype ScanResult = ScanResult(
    safetyScore: real, isSafe: bool, analysis: string, risks: seq<string>, recommendations: seq<string>)

  /**
   * How the call to the analysis function ends: no error and its data
   * (`None` when the call returned none), or an error with its message.
   */
  datatype Outcome = Analyzed(data: Option<ScanResult>) | Failed(message: string)

  datatype Toast = Toast(title: string, description: string, destructive: bool)

  class ScannerPage {
    var url: string
    var isScanning: bool
    var result: Option<ScanResult>
    var toasts: seq<Toast>

    constructor ()
      ensures url == "" && !isScanning && result.None? && toasts == []
    {
      url, isScanning, result, toasts := "", false, None, [];
    }

    /** Typing into the URL box. */
    method SetUrl(text: string)
      modifies this`url
      ensures url == text
    {
      url := text;
    }

    /**
     * `scanApp` up to the call: the trimmed URL is validated; a failure
     * raises a toast and changes nothing else, a success clears the old
     * result, starts scanning, and requests the URL as typed (untrimmed).
     */
    method ScanApp(isValidUrl: string -> bool) returns (request: Option<string>)
      modifies this`isScanning, this`result, this`toasts
      ensures request.None? <==> ValidationError(Trim(old(url)), isValidUrl).Some?
      ensures request.None? ==>
                && toasts == old(toasts) + [Toast(InvalidUrlTitle, ValidationError(Trim(old(url)), isValidUrl).value, true)]
                && isScanning == old(isScanning) && result == old(result)
      ensures request.Some? ==> request.value == old(url) && isScanning && result.None? && toasts == old(toasts)
    {
      var error := ValidationError(Trim(url), isValidUrl);
      if error.Some? {
        toasts := toasts + [Toast(InvalidUrlTitle, error.value, true)];
        request := None;
      } else {
        isScanning := true;
        result := None;
        request := Some(url);
      }
    }

    /** The rest of `scanApp`: the result or the failure toast, then `finally`. */
    method ScanFinished(outcome: Outcome)
      modifies this`isScanning, this`result, this`toasts
      ensures !isScanning
      ensures outcome.Analyzed? ==>
                result == outcome.data
                && toasts == old(toasts) + [Toast("Scan Complete", "App analysis has been completed successfully", false)]
      ensures outcome.Failed? ==>
                result == old(result)
                && toasts == old(toasts) + [Toast("Scan Failed", if outcome.message != "" then outcome.message else FailedMessage, true)]
    {
      match outcome {
        case Analyzed(data) =>
          result := data;
          toasts := toasts + [Toast("Scan Complete", "App analysis has been completed successfully", false)];
        case Failed(message) =>
          toasts := toasts + [Toast("Scan Failed", if message != "" then message else FailedMessage, true)];
      }
      isScanning := false;
    }
  }

  /** A URL is sent only after its trimmed form passed every rule. */
  lemma RequestedUrlPassed(url: string, isValidUrl: string -> bool)
    requires ValidationError(Trim(url), isValidUrl).None?
    ensures HasWebScheme(Trim(url)) && |Trim(url)| <= MaxUrlLength
  {
  }

  datatype Band = Green | Yellow | Red

  function SafetyBand(score: real): (b: Band)
    ensures b == Green <==> score >= 80.0
    ensures b == Yellow <==> 50.0 <= score < 80.0
    ensures b == Red <==> score < 50.0
  {
    if score >= 80.0 then Green else if score >= 50.0 then Yellow else Red
  }

  /** `getSafetyColor`. */
  function SafetyColor(score: real): (c: string)
    ensures c == "text-green-500" <==> score >= 80.0
    ensures c == "text-yellow-500" <==> 50.0 <= score < 80.0
    ensures c == "text-red-500" <==> score < 50.0
  {
    if score >= 80.0 then "text-green-500"
    else if score >= 50.0 then "text-yellow-500"
    else "text-red-500"
  }

  /** `getSafetyBgColor`. */
  function SafetyBgColor(score: real): (c: string)
    ensures c == "bg-green-500/10 border-green-500/20" <==> score >= 80.0
    ensures c == "bg-yellow-500/10 border-yellow-500/20" <==> 50.0 <= score < 80.0
    ensures c == "bg-red-500/10 border-red-500/20" <==> score < 50.0
  {
    if score >= 80.0 then "bg-green-500/10 border-green-500/20"
    else if score >= 50.0 then "bg-yellow-500/10 border-yellow-500/20"
    else "bg-red-500/10 border-red-500/20"
  }

  /** The text and the background of a score always show the same band. */
  lemma SafetyColorsAgree(s1: real, s2: real)
    ensures SafetyColor(s1) == SafetyColor(s2) <==> SafetyBgColor(s1) == SafetyBgColor(s2)
    ensures SafetyColor(s1) == SafetyColor(s2) <==> SafetyBand(s1) == SafetyBand(s2)
  {
  }

  /** A higher score never gets a worse band. */
  lemma SafetyBandMonotone(s1: real, s2: real)
    requires s1 <= s2
    ensures SafetyBand(s1) == Green ==> SafetyBand(s2) == Green
    ensures SafetyBand(s2) == Red ==> SafetyBand(s1) == Red
  {
  }
}
