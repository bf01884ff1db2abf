/**
 * The input check both pages run before tracking (LandingPage.jsx and
 * TrackingPage.jsx, `handleTrack`): the blank test trims, the length test
 * does not, and JavaScript measures length in UTF-16 code units.
 */
module Validation {
  import opened Wrappers
  import opened Text

  const EnterNumber := "Please enter a tracking number"
  const InvalidFormat := "Invalid tracking number format"
  const MinLength := 8

  /** The message the input earns, or `None` when it may be tracked. */
  function CheckInput(number: string): (r: Option<string>)
    ensures r.Some? ==> r.value in {EnterNumber, InvalidFormat}
  {
    if Trim(number) == "" then Some(EnterNumber)
    else if Utf16Length(number) < MinLength then Some(InvalidFormat)
    else None
  }

  /**
   * Blank input (whitespace only, as JavaScript's `trim` sees it) asks for a
   * number; other input shorter than 8 UTF-16 units is refused as malformed;
   * everything else passes.
   */
  lemma CheckInputMeaning(number: string)
    ensures CheckInput(number).None? <==> !AllWhitespace(number) && Utf16Length(number) >= MinLength
    ensures AllWhitespace(number) ==> CheckInput(number) == Some(EnterNumber)
    ensures !AllWhitespace(number) && Utf16Length(number) < MinLength ==> CheckInput(number) == Some(InvalidFormat)
  {
    TrimEmpty(number);
  }

  /**
   * Whitespace counts toward the length: three spaces and five digits pass
   * although the number itself is five characters long.
   */
  lemma PaddingPassesLengthCheck()
    ensures CheckInput("   12345") == None
  {
    var s := "   12345";
    assert !IsJsWhitespace(s[3]);
    Utf16LengthAscii(s);
    CheckInputMeaning(s);
  }

  /**
   * Input the page accepts has at least 8 characters once it uses no
   * characters outside the Basic Multilingual Plane, so the back end's
   * `len(tracking_number) < 8` check passes it too, provided the number
   * reaches the back end unchanged (the request path does not encode it).
   */
  lemma AcceptedBmpInputPassesServerLength(number: string)
    requires CheckInput(number).None?
    requires forall i :: 0 <= i < |number| ==> number[i] as int < 0x1_0000
    ensures |number| >= MinLength
  {
    CheckInputMeaning(number);
    Utf16LengthAscii(number);
  }

  /**
   * The two length measures part on characters outside the Basic Multilingual
   * Plane: four such characters pass the page (8 UTF-16 units) but are only 4
   * characters for the back end, which answers 400.
   */
  lemma SupplementaryCharactersPassOnlyThePage()
    ensures var s := "\U{1F4E6}\U{1F4E6}\U{1F4E6}\U{1F4E6}";
      CheckInput(s) == None && |s| < MinLength
  {
    var s := "\U{1F4E6}\U{1F4E6}\U{1F4E6}\U{1F4E6}";
    assert !IsJsWhitespace(s[0]);
    assert Utf16Length(s) == 8;
    CheckInputMeaning(s);
  }
}
