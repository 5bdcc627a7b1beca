/**
 * Field validation for webhook requests: an E.164 phone number and message
 * content of at most 160 bytes, with the errors collected in order and
 * rendered as one `"field: message; ..."` string.
 */
module Validation {
  import opened Wrappers
  import opened Text

  const PhoneRequired := "phone number is required"
  const PhoneNotE164 := "phone number must be in E.164 format (e.g., +905551234567)"
  const ContentRequired := "message content is required"
  const ContentTooLong := "message content must be 160 characters or less"

  /** Most bytes a message's content may have. */
  const MaxContentBytes: nat := 160

  /**
   * Whether all of `s` matches `\d{lo,hi}`: between `lo` and `hi` ASCII digits,
   * consumed one repetition at a time as the regular expression engine does.
   */
  function MatchDigitRun(s: string, lo: nat, hi: nat): bool
  {
    if s == [] then lo == 0
    else hi > 0 && IsDigit(s[0]) && MatchDigitRun(s[1..], if lo > 0 then lo - 1 else 0, hi - 1)
  }

  /** Whether `s` matches the anchored pattern `^\+[1-9]\d{1,14}$`. */
  function MatchesPhonePattern(s: string): bool
  {
    |s| >= 2 && s[0] == '+' && '1' <= s[1] <= '9' && MatchDigitRun(s[2..], 1, 14)
  }

  /**
   * ITU-T E.164 as the service reads it: a plus sign, then a country code that
   * does not start with 0, then digits, 2 to 15 digits in all.
   */
  predicate IsE164(s: string)
  {
    && |s| >= 1 && s[0] == '+'
    && 2 <= |s| - 1 <= 15
    && '1' <= s[1] <= '9'
    && AllDigits(s[1..])
  }

  lemma {:induction false} MatchDigitRunExactly(s: string, lo: nat, hi: nat)
    ensures MatchDigitRun(s, lo, hi) <==> lo <= |s| <= hi && AllDigits(s)
  {
    if s != [] && hi > 0 {
      MatchDigitRunExactly(s[1..], if lo > 0 then lo - 1 else 0, hi - 1);
      assert AllDigits(s) <==> IsDigit(s[0]) && AllDigits(s[1..]) by {
        if IsDigit(s[0]) && AllDigits(s[1..]) {
          forall i | 0 <= i < |s| ensures IsDigit(s[i]) { if i > 0 { assert s[i] == s[1..][i - 1]; } }
        }
        if AllDigits(s) {
          forall i | 0 <= i < |s[1..]| ensures IsDigit(s[1..][i]) { assert s[1..][i] == s[i + 1]; }
        }
      }
    }
  }

  /** The regular expression accepts exactly the E.164 numbers. */
  lemma PhonePatternIsE164(s: string)
    ensures MatchesPhonePattern(s) <==> IsE164(s)
  {
    if |s| >= 2 {
      MatchDigitRunExactly(s[2..], 1, 14);
      assert AllDigits(s[1..]) <==> IsDigit(s[1]) && AllDigits(s[2..]) by {
        if IsDigit(s[1]) && AllDigits(s[2..]) {
          forall i | 0 <= i < |s[1..]| ensures IsDigit(s[1..][i]) { if i > 0 { assert s[1..][i] == s[2..][i - 1]; } }
        }
        if AllDigits(s[1..]) {
          forall i | 0 <= i < |s[2..]| ensures IsDigit(s[2..][i]) { assert s[2..][i] == s[1..][i + 1]; }
        }
      }
    }
  }

  /** `ValidatePhoneNumber`: None when the number is acceptable, else the error text. */
  function ValidatePhoneNumber(phone: string): (r: Option<string>)
    ensures r.None? <==> IsE164(phone)
    ensures phone == "" ==> r == Some(PhoneRequired)
    ensures phone != "" && !IsE164(phone) ==> r == Some(PhoneNotE164)
  {
    PhonePatternIsE164(phone);
    if phone == "" then Some(PhoneRequired)
    else if !MatchesPhonePattern(phone) then Some(PhoneNotE164)
    else None
  }

  /** Content is acceptable when it is non-empty and its UTF-8 encoding has at most 160 bytes. */
  predicate ContentAcceptable(content: string)
  {
    content != [] && Utf8Len(content) <= MaxContentBytes
  }

  /** `ValidateMessageContent`: None when the content is acceptable, else the error text. */
  function ValidateMessageContent(content: string): (r: Option<string>)
    ensures r.None? <==> ContentAcceptable(content)
    ensures content == "" ==> r == Some(ContentRequired)
    ensures content != "" && Utf8Len(content) > MaxContentBytes ==> r == Some(ContentTooLong)
  {
    if content == "" then Some(ContentRequired)
    else if Utf8Len(content) > MaxContentBytes then Some(ContentTooLong)
    else None
  }

  /** For ASCII content the byte limit is a character limit: 1 to 160 characters pass. */
  lemma AsciiContentBounds(content: string)
    requires IsAscii(content)
    ensures ContentAcceptable(content) <==> 1 <= |content| <= 160
  {
    Utf8LenAscii(content);
  }

  datatype ValidationError = ValidationError(field: string, message: string)

  /** `ValidateWebhookRequest`: one error per invalid field, `to` first. */
  function ValidateWebhookRequest(to: string, content: string): (errs: seq<ValidationError>)
    ensures |errs| <= 2
    ensures errs == [] <==> IsE164(to) && ContentAcceptable(content)
    ensures !IsE164(to) ==> errs[0] == ValidationError("to", ValidatePhoneNumber(to).value)
    ensures !ContentAcceptable(content) ==>
              errs[|errs| - 1] == ValidationError("content", ValidateMessageContent(content).value)
    ensures |errs| == (if IsE164(to) then 0 else 1) + (if ContentAcceptable(content) then 0 else 1)
  {
    var toErrs := match ValidatePhoneNumber(to)
      case Some(e) => [ValidationError("to", e)]
      case None => [];
    var contentErrs := match ValidateMessageContent(content)
      case Some(e) => [ValidationError("content", e)]
      case None => [];
    toErrs + contentErrs
  }

  /** One error as `"field: message"`. */
  function FormatError(e: ValidationError): string
  {
    e.field + ": " + e.message
  }

  function FormatAll(errs: seq<ValidationError>): (items: seq<string>)
    ensures |items| == |errs|
    ensures forall i :: 0 <= i < |errs| ==> items[i] == FormatError(errs[i])
  {
    if errs == [] then [] else [FormatError(errs[0])] + FormatAll(errs[1..])
  }

  /** `ValidationErrors.Error`: formats each error in a loop, then joins them with `"; "`. */
  method ErrorText(errs: seq<ValidationError>) returns (text: string)
    ensures text == Join(FormatAll(errs), "; ")
    ensures text == "" <==> errs == []
  {
    var messages: seq<string> := [];
    var i := 0;
    while i < |errs|
      invariant 0 <= i <= |errs|
      invariant |messages| == i
      invariant forall k :: 0 <= k < i ==> messages[k] == FormatError(errs[k])
    {
      messages := messages + [FormatError(errs[i])];
      i := i + 1;
    }
    assert messages == FormatAll(errs);
    text := Join(messages, "; ");
    JoinEmpty(messages, "; ");
  }

  /** With both fields wrong, the rendered error names `to` and then `content`. */
  lemma BothInvalidRendering(to: string, content: string)
    requires !IsE164(to) && !ContentAcceptable(content)
    ensures Join(FormatAll(ValidateWebhookRequest(to, content)), "; ")
            == "to: " + ValidatePhoneNumber(to).value + "; content: " + ValidateMessageContent(content).value
  {
    var errs := ValidateWebhookRequest(to, content);
    var items := FormatAll(errs);
    assert |items| == 2;
    assert items[1..] == [items[1]];
  }
}
