/** The `catch` of `processVideo`: every error raised once the engine work has
    begun is rewritten into one user-facing message by an ordered chain of
    keyword rules. */
module ProcessingErrors {
  import opened Js

  /** The message the code itself throws at each cancellation checkpoint. */
  const CancelledText := "Processing was cancelled."

  const DefaultText := "Something went wrong while processing the video."
  const GenericText := "Something went wrong while processing the video. Please " + "check your"
                       + " files and try again. If the problem persists, try using a static image instead of a GIF."
  const TimeoutText := "Processing took too long. The files may be too large. Please try smaller files."
  const MemoryText := "Not enough memory to process the video. Please try smaller files or close other browser tabs."
  const FilterText := "Error processing the video. The GIF format may not be supported. Please try a different GIF or convert it to a static image."
  const ExitNoMessageText := "Video processing failed. Please " + "check your" + " files and try again."
  const ExitCodePrefix := "Video processing failed (exit code: "

  function ExitCodeText(code: string): string
  {
    ExitCodePrefix + code + "). The files may be corrupted, incompatible, or too large. Please try different files."
  }

  // ---------------------------------------------------------------------------
  // The regular expression /exit code (\d+)/i

  /** Case-insensitive "exit code " followed by a digit starts at i. */
  predicate ExitCodeAt(s: string, i: nat)
  {
    i + 11 <= |s| && ToLowerCase(s[i..i + 10]) == "exit code " && IsDigit(s[i + 10])
  }

  /** The longest run of digits that s starts with: what `\d+` captures. */
  function DigitRun(s: string): (r: string)
    ensures AllDigits(r) && StartsWith(s, r)
    ensures |r| < |s| ==> !IsDigit(s[|r|])
  {
    if |s| > 0 && IsDigit(s[0]) then [s[0]] + DigitRun(s[1..]) else ""
  }

  /** The leftmost position at or after i where the pattern matches. */
  function FirstExitCodeFrom(s: string, i: nat): (r: Option<nat>)
    ensures r.None? ==> forall j :: i <= j ==> !ExitCodeAt(s, j)
    ensures r.Some? ==> i <= r.value && ExitCodeAt(s, r.value)
    ensures r.Some? ==> forall j :: i <= j < r.value ==> !ExitCodeAt(s, j)
    decreases |s| - i
  {
    if i + 11 > |s| then None
    else if ExitCodeAt(s, i) then Some(i)
    else FirstExitCodeFrom(s, i + 1)
  }

  /** What `message.match(/exit code (\d+)/i)?.[1]` yields: the digits after
      the leftmost case-insensitive "exit code ", or None when there is no match. */
  function ExitCodeCapture(s: string): (r: Option<string>)
    ensures r.None? <==> forall j :: !ExitCodeAt(s, j)
    ensures r.Some? ==> |r.value| > 0 && AllDigits(r.value) && Includes(s, r.value)
    ensures r.Some? ==> exists k: nat :: && ExitCodeAt(s, k)
                                    && (forall j :: 0 <= j < k ==> !ExitCodeAt(s, j))
                                    && r.value == DigitRun(s[k + 10..])
  {
    match FirstExitCodeFrom(s, 0)
    case None => None
    case Some(k) =>
      var d := DigitRun(s[k + 10..]);
      assert StartsWith(s[k + 10..], d);
      Some(d)
  }

  // ---------------------------------------------------------------------------
  // The ordered chain

  /** The branches of the `catch`, in the order the code tries them. */
  datatype Rule = PassThrough | InvalidInput | ExitCode | Timeout | Memory | Filter | Unhandled
                | ExitCodeNoMessage | NoMessage

  function Order(r: Rule): nat
  {
    match r
    case PassThrough => 0
    case InvalidInput => 1
    case ExitCode => 2
    case Timeout => 3
    case Memory => 4
    case Filter => 5
    case Unhandled => 6
    case ExitCodeNoMessage => 7
    case NoMessage => 8
  }

  /** Messages already phrased for the user. */
  predicate UserFacing(m: string)
  {
    Includes(m, "Failed to") || Includes(m, "does not support") || Includes(m, "check your")
    || Includes(m, "refresh the page")
  }

  /** Whether a branch's own test accepts the error, ignoring the branches
      before it. */
  predicate Matches(e: JsError, r: Rule)
  {
    match r
    case PassThrough => e.message != "" && UserFacing(e.message)
    case InvalidInput => e.message != "" && Includes(e.message, "Invalid")
    case ExitCode => e.message != "" && (e.name == "ExitCodeError" || Includes(e.message, "ExitCode"))
    case Timeout => e.message != "" && (Includes(e.message, "timeout") || Includes(e.message, "Timeout"))
    case Memory => e.message != "" && (Includes(e.message, "memory") || Includes(e.message, "Memory"))
    case Filter => e.message != "" && (Includes(e.message, "filter") || Includes(e.message, "Filter"))
    case Unhandled => e.message != ""
    case ExitCodeNoMessage => e.message == "" && e.name == "ExitCodeError"
    case NoMessage => e.message == ""
  }

  /** The branch the `catch` takes: the first whose test accepts the error. */
  function RuleFor(e: JsError): (r: Rule)
    ensures Matches(e, r)
    ensures forall r' :: Order(r') < Order(r) ==> !Matches(e, r')
  {
    if e.message != "" then
      if UserFacing(e.message) then PassThrough
      else if Includes(e.message, "Invalid") then InvalidInput
      else if e.name == "ExitCodeError" || Includes(e.message, "ExitCode") then ExitCode
      else if Includes(e.message, "timeout") || Includes(e.message, "Timeout") then Timeout
      else if Includes(e.message, "memory") || Includes(e.message, "Memory") then Memory
      else if Includes(e.message, "filter") || Includes(e.message, "Filter") then Filter
      else Unhandled
    else if e.name == "ExitCodeError" then ExitCodeNoMessage
    else NoMessage
  }

  /** The message of the error `processVideo` rethrows. */
  function ClassifyProcessingError(e: JsError): (msg: string)
    ensures |msg| > 0
    ensures e.message != "" && (UserFacing(e.message) || Includes(e.message, "Invalid")) ==> msg == e.message
  {
    match RuleFor(e)
    case PassThrough => e.message
    case InvalidInput => e.message
    case ExitCode =>
      var code := match ExitCodeCapture(e.message) case Some(d) => d case None => "unknown";
      StartsWithPrefix(ExitCodePrefix, code + "). The files may be corrupted, incompatible, or too large. Please try different files.");
      ExitCodeText(code)
    case Timeout => TimeoutText
    case Memory => MemoryText
    case Filter => FilterText
    case Unhandled => GenericText
    case ExitCodeNoMessage => ExitNoMessageText
    case NoMessage => DefaultText
  }

  /** The text each branch of the chain rethrows: the exit-code text with the
      captured digits or "unknown", and a fixed text for every other branch
      that does not pass the message through. With `RuleFor`'s first-match
      contract this is the whole ordered chain. */
  lemma ClassifyByRule(e: JsError)
    ensures var msg := ClassifyProcessingError(e);
            && (RuleFor(e) == PassThrough || RuleFor(e) == InvalidInput ==> msg == e.message)
            && (RuleFor(e) == ExitCode ==>
                  msg == ExitCodeText(match ExitCodeCapture(e.message) case Some(d) => d case None => "unknown"))
            && (RuleFor(e) == Timeout ==> msg == TimeoutText)
            && (RuleFor(e) == Memory ==> msg == MemoryText)
            && (RuleFor(e) == Filter ==> msg == FilterText)
            && (RuleFor(e) == Unhandled ==> msg == GenericText)
            && (RuleFor(e) == ExitCodeNoMessage ==> msg == ExitNoMessageText)
            && (RuleFor(e) == NoMessage ==> msg == DefaultText)
  {
  }

  /** Every exit-code text starts with the same prefix. */
  lemma ExitCodeTextHasPrefix(code: string)
    ensures StartsWith(ExitCodeText(code), ExitCodePrefix)
  {
    StartsWithPrefix(ExitCodePrefix, code + "). The files may be corrupted, incompatible, or too large. Please try different files.");
  }

  /** The message is the original one or one of the chain's own texts. */
  lemma ClassifyChoosesAmongTexts(e: JsError)
    ensures var msg := ClassifyProcessingError(e);
            msg == e.message || msg in {DefaultText, GenericText, TimeoutText, MemoryText, FilterText, ExitNoMessageText}
            || StartsWith(msg, ExitCodePrefix)
  {
    ClassifyByRule(e);
    var msg := ClassifyProcessingError(e);
    var rule := RuleFor(e);
    if rule == ExitCode {
      ExitCodeTextHasPrefix(match ExitCodeCapture(e.message) case Some(d) => d case None => "unknown");
    } else if rule != PassThrough && rule != InvalidInput {
      assert msg == DefaultText || msg == GenericText || msg == TimeoutText || msg == MemoryText
          || msg == FilterText || msg == ExitNoMessageText;
    }
  }

  /** An engine failure that names its exit code is reported with those
      digits; one that does not is reported as "unknown". */
  lemma ExitCodeIsReported(e: JsError)
    requires RuleFor(e) == ExitCode
    ensures ExitCodeCapture(e.message).Some? ==>
              Includes(ClassifyProcessingError(e), ExitCodeCapture(e.message).value)
    ensures ExitCodeCapture(e.message).None? ==> Includes(ClassifyProcessingError(e), "unknown")
  {
    var code := match ExitCodeCapture(e.message) case Some(d) => d case None => "unknown";
    IncludesMiddle(ExitCodePrefix, code,
                   "). The files may be corrupted, incompatible, or too large. Please try different files.");
  }

  /** "Exit code 1" carries none of the earlier rules' keywords. */
  lemma ExitCodeOneIsNotUserFacing()
    ensures !UserFacing("Exit code " + "1") && !Includes("Exit code " + "1", "Invalid")
  {
    var m := "Exit code " + "1";
    assert 'a' !in m && 'r' !in m;
    NotIncludesMissingChar(m, "Failed to", 'a');
    NotIncludesMissingChar(m, "does not support", 'r');
    NotIncludesMissingChar(m, "check your", 'r');
    NotIncludesMissingChar(m, "refresh the page", 'a');
    NotIncludesMissingChar(m, "Invalid", 'a');
  }

  /** An ExitCodeError whose message is "Exit code 1" reaches the user as a
      message that names code 1. */
  lemma ExitCodeOneIsNamed()
    ensures Includes(ClassifyProcessingError(JsError("ExitCodeError", "Exit code " + "1")), "1")
  {
    var e := JsError("ExitCodeError", "Exit code " + "1");
    ExitCodeOneIsNotUserFacing();
    assert RuleFor(e) == ExitCode;
    assert e.message[0..10] == "Exit code ";
    assert ToLowerCase("Exit code ") == "exit code ";
    assert ExitCodeAt(e.message, 0);
    assert e.message[10..] == "1";
    assert DigitRun("1") == "1";
    ExitCodeIsReported(e);
  }

  /** The cancellation message carries none of the keywords the chain looks
      for: it has no 't', 'v' or 'y', and each keyword has one of them. */
  lemma CancelledTextMatchesNoKeyword()
    ensures !UserFacing(CancelledText) && !Includes(CancelledText, "Invalid")
    ensures !Includes(CancelledText, "ExitCode")
    ensures !Includes(CancelledText, "timeout") && !Includes(CancelledText, "Timeout")
    ensures !Includes(CancelledText, "memory") && !Includes(CancelledText, "Memory")
    ensures !Includes(CancelledText, "filter") && !Includes(CancelledText, "Filter")
  {
    var m := CancelledText;
    assert 't' !in m && 'v' !in m && 'y' !in m;
    NotIncludesMissingChar(m, "Failed to", 't');
    NotIncludesMissingChar(m, "does not support", 't');
    NotIncludesMissingChar(m, "check your", 'y');
    NotIncludesMissingChar(m, "refresh the page", 't');
    NotIncludesMissingChar(m, "Invalid", 'v');
    NotIncludesMissingChar(m, "ExitCode", 't');
    NotIncludesMissingChar(m, "timeout", 't');
    NotIncludesMissingChar(m, "Timeout", 't');
    NotIncludesMissingChar(m, "memory", 'y');
    NotIncludesMissingChar(m, "Memory", 'y');
    NotIncludesMissingChar(m, "filter", 't');
    NotIncludesMissingChar(m, "Filter", 't');
  }

  /** The code's own cancellation message matches none of the keywords, so it
      is replaced by the generic text; a caller cannot tell a cancellation
      from the message and must look at its abort signal instead. */
  lemma CancelledMessageIsRewritten()
    ensures ClassifyProcessingError(JsError("Error", CancelledText)) == GenericText
  {
    CancelledTextMatchesNoKeyword();
    assert RuleFor(JsError("Error", CancelledText)) == Unhandled;
  }

  /** The generic text is itself user-facing, so classifying it again leaves
      it unchanged. */
  lemma GenericTextIsStable(name: string)
    ensures ClassifyProcessingError(JsError(name, GenericText)) == GenericText
  {
    IncludesMiddle("Something went wrong while processing the video. Please ", "check your",
                   " files and try again. If the problem persists, try using a static image instead of a GIF.");
  }
}
