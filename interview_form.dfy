/** The dialog that edits one recorded interview: its form state, the
    validation of interviewer and rating, and the record it submits. */
module InterviewForm {
  import opened Common
  import opened Model

  /** The rating field. It starts out holding the stored number (or the empty
      string when the stored rating is falsy) and holds the select's text
      once the user picks an option. */
  datatype RatingInput = RatingNumber(n: int) | RatingText(text: string)

  /** JavaScript falsiness of the field: the number `0` or the empty string. */
  predicate IsFalsy(r: RatingInput)
  {
    r == RatingNumber(0) || r == RatingText("")
  }

  /** `String(n)` for an integer. */
  function IntToDecimal(n: int): string
  {
    if n >= 0 then NatToDecimal(n) else "-" + NatToDecimal(-n)
  }

  /** `parseInt(formData.rating)`: a number is converted through its decimal
      text, a string is parsed directly. */
  function ParseRating(r: RatingInput): (v: Option<int>)
    ensures r.RatingNumber? ==> v == Some(r.n)
    ensures r == RatingText("") ==> v.None?
  {
    match r
    case RatingNumber(n) =>
      IntToDecimalRoundTrip(n);
      ParseInt(IntToDecimal(n))
    case RatingText(t) =>
      if t == [] then ParseIntOfBlank(t); ParseInt(t) else ParseInt(t)
  }

  /** `parseInt(String(n)) === n` for every integer. */
  lemma IntToDecimalRoundTrip(n: int)
    ensures ParseInt(IntToDecimal(n)) == Some(n)
  {
    ParseIntRoundTrip(n);
  }

  /** A number in the field parses back to itself. */
  lemma ParseRatingOfNumber(n: int)
    ensures ParseRating(RatingNumber(n)) == Some(n)
  {
    ParseIntRoundTrip(n);
  }

  /** Each option of the rating select, `"1"` to `"5"`, parses to its value. */
  lemma ParseRatingOfOption(k: int)
    requires 1 <= k <= 5
    ensures ParseRating(RatingText(NatToDecimal(k))) == Some(k)
  {
    ParseIntRoundTrip(k);
  }

  datatype FormData = FormData(interviewer: string, rating: RatingInput, feedback: string)

  /** The form's starting values, taken from the interview being edited. */
  function InitialFormData(iv: Interview): (f: FormData)
    ensures f.interviewer == iv.interviewer && f.feedback == iv.feedback
    ensures iv.rating == 0 ==> f.rating == RatingText("")
    ensures iv.rating != 0 ==> f.rating == RatingNumber(iv.rating)
  {
    FormData(iv.interviewer, if iv.rating == 0 then RatingText("") else RatingNumber(iv.rating), iv.feedback)
  }

  /** The per-field messages; `None` is an absent (or cleared) entry. */
  datatype Errors = Errors(interviewer: Option<string>, rating: Option<string>)

  const NoErrors := Errors(None, None)

  const InterviewerRequired := "Interviewer name is required"
  const InterviewerTooShort := "Interviewer name must be at least 2 characters"
  const RatingRequired := "Rating is required"
  const RatingOutOfRange := "Rating must be between 1 and 5"

  predicate RatingInRange(r: RatingInput)
  {
    ParseRating(r).Some? && 1 <= ParseRating(r).value <= 5
  }

  /** The interviewer's message: missing when blank, too short when fewer
      than two characters remain after trimming, none otherwise. */
  function InterviewerError(interviewer: string): (e: Option<string>)
    ensures e.None? <==> |Trim(interviewer)| >= 2
    ensures e == Some(InterviewerRequired) <==> IsBlank(interviewer)
    ensures e == Some(InterviewerTooShort) <==> !IsBlank(interviewer) && |Trim(interviewer)| < 2
  {
    if Trim(interviewer) == [] then Some(InterviewerRequired)
    else if |Trim(interviewer)| < 2 then Some(InterviewerTooShort)
    else None
  }

  /** The rating's message: missing when falsy, out of range unless it parses
      to a value from 1 to 5, none otherwise. */
  function RatingError(rating: RatingInput): (e: Option<string>)
    ensures e.None? <==> RatingInRange(rating)
    ensures e == Some(RatingRequired) <==> IsFalsy(rating)
    ensures e == Some(RatingOutOfRange) <==> !IsFalsy(rating) && !RatingInRange(rating)
  {
    ParseRatingOfNumber(0);
    if IsFalsy(rating) then Some(RatingRequired)
    else if !RatingInRange(rating) then Some(RatingOutOfRange)
    else None
  }

  /** `validateForm`'s verdict. The interviewer is accepted exactly when at
      least two characters remain after trimming, the rating exactly when it
      parses to a value from 1 to 5; a blank interviewer or a falsy rating is
      reported as missing, anything else rejected as too short or out of
      bounds. */
  function Validate(f: FormData): (e: Errors)
    ensures e.interviewer.None? <==> |Trim(f.interviewer)| >= 2
    ensures e.interviewer == Some(InterviewerRequired) <==> IsBlank(f.interviewer)
    ensures e.interviewer == Some(InterviewerTooShort) <==> !IsBlank(f.interviewer) && |Trim(f.interviewer)| < 2
    ensures e.rating.None? <==> RatingInRange(f.rating)
    ensures e.rating == Some(RatingRequired) <==> IsFalsy(f.rating)
    ensures e.rating == Some(RatingOutOfRange) <==> !IsFalsy(f.rating) && !RatingInRange(f.rating)
  {
    Errors(InterviewerError(f.interviewer), RatingError(f.rating))
  }

  /** The record handed to `onUpdateInterview`: the original interview with
      the trimmed interviewer and feedback and the parsed rating. */
  function SubmittedInterview(iv: Interview, f: FormData): (r: Interview)
    requires RatingInRange(f.rating)
    ensures r.date == iv.date && r.kind == iv.kind
    ensures r.interviewer == Trim(f.interviewer) && r.feedback == Trim(f.feedback)
    ensures 1 <= r.rating <= 5 && Some(r.rating) == ParseRating(f.rating)
  {
    iv.(interviewer := Trim(f.interviewer), rating := ParseRating(f.rating).value, feedback := Trim(f.feedback))
  }

  /** A stored interview with a rating from 1 to 5 and an interviewer of two
      or more characters passes validation untouched, and submitting the
      untouched form gives the interview back when its texts carry no outer
      whitespace. */
  lemma UntouchedFormRoundTrip(iv: Interview)
    requires 1 <= iv.rating <= 5 && |Trim(iv.interviewer)| >= 2
    ensures Validate(InitialFormData(iv)) == NoErrors
    ensures Trim(iv.interviewer) == iv.interviewer && Trim(iv.feedback) == iv.feedback ==>
              SubmittedInterview(iv, InitialFormData(iv)) == iv
  {
    ParseRatingOfNumber(iv.rating);
  }

  /** A form passes validation exactly when both fields are acceptable. */
  lemma AcceptedForm(f: FormData)
    ensures Validate(f) == NoErrors <==> RatingInRange(f.rating) && |Trim(f.interviewer)| >= 2
  {
  }

  /** What a successful submit hands over: a rating from 1 to 5 and an
      interviewer of at least two characters with no outer whitespace. */
  lemma SubmittedIsValid(iv: Interview, f: FormData)
    requires Validate(f) == NoErrors
    ensures RatingInRange(f.rating)
    ensures 1 <= SubmittedInterview(iv, f).rating <= 5
    ensures |SubmittedInterview(iv, f).interviewer| >= 2
    ensures !IsWhitespace(SubmittedInterview(iv, f).interviewer[0])
  {
  }

  datatype Field = InterviewerField | RatingField | FeedbackField

  /** The form data after the user types `value` into `field`. */
  function WithField(f: FormData, field: Field, value: string): (r: FormData)
    ensures field == InterviewerField ==> r == f.(interviewer := value)
    ensures field == RatingField ==> r == f.(rating := RatingText(value))
    ensures field == FeedbackField ==> r == f.(feedback := value)
  {
    match field
    case InterviewerField => f.(interviewer := value)
    case RatingField => f.(rating := RatingText(value))
    case FeedbackField => f.(feedback := value)
  }

  class EditInterviewForm {
    /** The `interview` prop. */
    var interview: Interview
    var isOpen: bool
    var errors: Errors
    var formData: FormData

    constructor(iv: Interview)
      ensures interview == iv && !isOpen && errors == NoErrors && formData == InitialFormData(iv)
    {
      interview := iv;
      isOpen := false;
      errors := NoErrors;
      formData := InitialFormData(iv);
    }

    /** A new `interview` prop. The form data is initialised once, when the
        dialog is first rendered, so it keeps its current values. */
    method ReceiveInterview(iv: Interview)
      modifies this`interview
      ensures interview == iv
    {
      interview := iv;
    }

    /** The dialog's `onOpenChange` (the trigger button and closing it). */
    method SetOpen(open: bool)
      modifies this`isOpen
      ensures isOpen == open
    {
      isOpen := open;
    }

    method ValidateForm() returns (ok: bool)
      modifies this`errors
      ensures errors == Validate(formData)
      ensures ok <==> errors == NoErrors
    {
      errors := Validate(formData);
      ok := errors.interviewer.None? && errors.rating.None?;
    }

    /** `handleSubmit`: on a valid form, hands over the updated interview and
        closes the dialog; otherwise only the messages change. */
    method HandleSubmit() returns (updated: Option<Interview>)
      modifies this`errors, this`isOpen
      ensures formData == old(formData) && errors == Validate(formData)
      ensures updated.Some? <==> errors == NoErrors
      ensures updated.Some? ==> RatingInRange(formData.rating) && updated == Some(SubmittedInterview(interview, formData)) && !isOpen
      ensures updated.None? ==> isOpen == old(isOpen)
    {
      errors := Validate(formData);
      if errors == NoErrors {
        assert RatingInRange(formData.rating);
        updated := Some(SubmittedInterview(interview, formData));
        isOpen := false;
      } else {
        updated := None;
      }
    }

    /** `handleCancel`: back to the interview's values, no messages, closed. */
    method HandleCancel()
      modifies this`formData, this`errors, this`isOpen
      ensures formData == InitialFormData(interview) && errors == NoErrors && !isOpen
    {
      formData := InitialFormData(interview);
      errors := NoErrors;
      isOpen := false;
    }

    /** `handleInputChange`: stores the typed value and clears that field's
        message; the other field's message stays. */
    method HandleInputChange(field: Field, value: string)
      modifies this`formData, this`errors
      ensures formData == WithField(old(formData), field, value)
      ensures field == InterviewerField ==> errors == old(errors).(interviewer := None)
      ensures field == RatingField ==> errors == old(errors).(rating := None)
      ensures field == FeedbackField ==> errors == old(errors)
    {
      formData := WithField(formData, field, value);
      if field == InterviewerField && errors.interviewer.Some? {
        errors := errors.(interviewer := None);
      } else if field == RatingField && errors.rating.Some? {
        errors := errors.(rating := None);
      }
    }
  }
}
