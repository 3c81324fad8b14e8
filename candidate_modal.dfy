/** The candidate detail drawer: its edit state, the save handler with its
    e-mail validation, the tag and interview list editors, and the small
    display classifiers. */
module CandidateModal {
  import opened Common
  import opened Model

  // ---------------------------------------------------------------------
  // E-mail validation
  // ---------------------------------------------------------------------

  /** No whitespace (in the sense of the pattern's `\s`) and no `@`. */
  predicate NoSpaceOrAt(t: string)
  {
    forall i :: 0 <= i < |t| ==> !IsWhitespace(t[i]) && t[i] != '@'
  }

  /** What `/^[^\s@]+@[^\s@]+\.[^\s@]+$/` accepts, stated by the positions of
      the `@` and of the separating `.`: three non-empty runs of characters
      other than whitespace and `@`, joined by `@` and `.`. */
  ghost predicate EmailPattern(s: string)
  {
    exists i, j :: 0 < i && i + 1 < j && j + 1 < |s| && s[i] == '@' && s[j] == '.' &&
      NoSpaceOrAt(s[..i]) && NoSpaceOrAt(s[i + 1..j]) && NoSpaceOrAt(s[j + 1..])
  }

  /** The check as the matcher effectively performs it: a single `@` that is
      not first, nothing but non-space, non-`@` characters around it, and a
      `.` strictly inside the domain part. */
  predicate EmailShape(s: string)
  {
    var at := IndexOf(s, '@');
    at > 0 && NoSpaceOrAt(s[..at]) &&
    var domain := s[at + 1..];
    NoSpaceOrAt(domain) && exists q :: 0 < q < |domain| - 1 && domain[q] == '.'
  }

  lemma ShapeGivesPattern(s: string)
    requires EmailShape(s)
    ensures EmailPattern(s)
  {
    var at := IndexOf(s, '@');
    var domain := s[at + 1..];
    var q :| 0 < q < |domain| - 1 && domain[q] == '.';
    var j := at + 1 + q;
    assert s[at + 1..j] == domain[..q];
    assert s[j + 1..] == domain[q + 1..];
    assert NoSpaceOrAt(domain[..q]) && NoSpaceOrAt(domain[q + 1..]);
    assert s[at] == '@' && s[j] == '.';
  }

  lemma PatternGivesShape(s: string, i: int, j: int)
    requires 0 < i && i + 1 < j && j + 1 < |s| && s[i] == '@' && s[j] == '.'
    requires NoSpaceOrAt(s[..i]) && NoSpaceOrAt(s[i + 1..j]) && NoSpaceOrAt(s[j + 1..])
    ensures EmailShape(s)
  {
    assert forall k :: 0 <= k < i ==> s[k] == s[..i][k];
    assert IndexOf(s, '@') == i;
    var domain := s[i + 1..];
    assert domain == s[i + 1..j] + ['.'] + s[j + 1..];
    assert NoSpaceOrAt(domain);
    assert domain[j - i - 1] == '.';
  }

  /** The effective check accepts exactly the strings the pattern matches. */
  lemma EmailShapeMatchesPattern(s: string)
    ensures EmailShape(s) <==> EmailPattern(s)
  {
    if EmailShape(s) {
      ShapeGivesPattern(s);
    }
    if EmailPattern(s) {
      var i, j :| 0 < i && i + 1 < j && j + 1 < |s| && s[i] == '@' && s[j] == '.' &&
        NoSpaceOrAt(s[..i]) && NoSpaceOrAt(s[i + 1..j]) && NoSpaceOrAt(s[j + 1..]);
      PatternGivesShape(s, i, j);
    }
  }

  /** The save handler's verdict on the e-mail field. */
  datatype EmailCheck = EmailMissing | EmailMalformed | EmailOk

  /** Missing when blank after trimming; otherwise accepted exactly when the
      trimmed address matches the pattern. */
  function CheckEmail(email: string): (r: EmailCheck)
    ensures r == EmailMissing <==> IsBlank(email)
    ensures r == EmailOk <==> !IsBlank(email) && EmailPattern(Trim(email))
  {
    var trimmed := Trim(email);
    if trimmed == [] then EmailMissing
    else if !EmailShape(trimmed) then
      assert !EmailPattern(trimmed) by { EmailShapeMatchesPattern(trimmed); }
      EmailMalformed
    else
      assert EmailPattern(trimmed) by { EmailShapeMatchesPattern(trimmed); }
      EmailOk
  }

  /** The record handed to `onSave`: the edited record with blank tags
      dropped and a fresh `updated_at`; the e-mail is kept untrimmed. */
  function SavedRecord(edited: Candidate, now: string): (r: Candidate)
    ensures r.updatedAt == now && r.email == edited.email
    ensures r.(tags := edited.tags, updatedAt := edited.updatedAt) == edited
    ensures IsSubsequence(r.tags, edited.tags)
    ensures forall i :: 0 <= i < |r.tags| ==> !IsBlank(r.tags[i])
    ensures forall t :: t in edited.tags && !IsBlank(t) ==> t in r.tags
    ensures forall t :: multiset(r.tags)[t] == if IsBlank(t) then 0 else multiset(edited.tags)[t]
  {
    edited.(tags := FilterNonBlank(edited.tags), updatedAt := now)
  }

  // ---------------------------------------------------------------------
  // Display classifiers
  // ---------------------------------------------------------------------

  datatype ExperienceLevel = Junior | MidLevel | Senior | Principal

  function LevelName(level: ExperienceLevel): string
  {
    match level
    case Junior => "Junior"
    case MidLevel => "Mid-level"
    case Senior => "Senior"
    case Principal => "Principal"
  }

  function Rank(level: ExperienceLevel): nat
  {
    match level
    case Junior => 0
    case MidLevel => 1
    case Senior => 2
    case Principal => 3
  }

  /** `getExperienceLevel`: up to 2 years Junior, up to 5 Mid-level, up to 8
      Senior, Principal beyond. */
  function ExperienceLevelOf(years: int): (level: ExperienceLevel)
    ensures level == Junior <==> years <= 2
    ensures level == MidLevel <==> 2 < years <= 5
    ensures level == Senior <==> 5 < years <= 8
    ensures level == Principal <==> 8 < years
  {
    if years <= 2 then Junior
    else if years <= 5 then MidLevel
    else if years <= 8 then Senior
    else Principal
  }

  /** More experience never gives a lower level, and each level is reached
      exactly on its band of years. */
  lemma ExperienceLevelMonotone(y1: int, y2: int)
    requires y1 <= y2
    ensures Rank(ExperienceLevelOf(y1)) <= Rank(ExperienceLevelOf(y2))
    ensures ExperienceLevelOf(y1) == Junior <==> y1 <= 2
    ensures ExperienceLevelOf(y1) == MidLevel <==> 2 < y1 <= 5
    ensures ExperienceLevelOf(y1) == Senior <==> 5 < y1 <= 8
    ensures ExperienceLevelOf(y1) == Principal <==> y1 > 8
  {
  }

  /** `c.repeat(n)` for a non-negative count. */
  function Repeat(c: char, n: nat): (r: string)
    ensures |r| == n && forall i :: 0 <= i < n ==> r[i] == c
  {
    if n == 0 then [] else [c] + Repeat(c, n - 1)
  }

  /** `getRatingStars`: `rating` filled stars then `5 - rating` empty ones;
      `None` where `repeat` would throw for a negative count. */
  function RatingStars(rating: int): (r: Option<string>)
    ensures r.Some? <==> 0 <= rating <= 5
    ensures r.Some? ==> (|r.value| == 5 &&
              forall i :: 0 <= i < 5 ==> r.value[i] == (if i < rating then '★' else '☆'))
  {
    if rating < 0 || rating > 5 then None
    else Some(Repeat('★', rating) + Repeat('☆', 5 - rating))
  }

  // ---------------------------------------------------------------------
  // The drawer's state
  // ---------------------------------------------------------------------

  class CandidateModal {
    var candidate: Option<Candidate>
    var editedCandidate: Option<Candidate>
    var isEditMode: bool

    constructor()
      ensures candidate.None? && editedCandidate.None? && !isEditMode
    {
      candidate := None;
      editedCandidate := None;
      isEditMode := false;
    }

    /** The effect that runs when the `candidate` or `isOpen` props change: an
        open drawer with a candidate starts a fresh, read-only copy. */
    method Sync(newCandidate: Option<Candidate>, isOpen: bool)
      modifies this
      ensures candidate == newCandidate
      ensures newCandidate.Some? && isOpen ==> editedCandidate == newCandidate && !isEditMode
      ensures !(newCandidate.Some? && isOpen) ==>
                editedCandidate == old(editedCandidate) && isEditMode == old(isEditMode)
    {
      candidate := newCandidate;
      if newCandidate.Some? && isOpen {
        editedCandidate := newCandidate;
        isEditMode := false;
      }
    }

    /** `handleSave`. With a record and a save callback, a missing or
        malformed e-mail raises `alert` and leaves the drawer as it is;
        otherwise the cleaned record is saved. Without a record or callback,
        or after saving, edit mode ends and the drawer closes. */
    method HandleSave(hasOnSave: bool, now: string) returns (saved: Option<Candidate>, alert: string, closed: bool)
      modifies this`isEditMode
      ensures editedCandidate.Some? && hasOnSave && CheckEmail(editedCandidate.value.email) == EmailMissing ==>
                saved.None? && alert == "Email is a required field." && !closed && isEditMode == old(isEditMode)
      ensures editedCandidate.Some? && hasOnSave && CheckEmail(editedCandidate.value.email) == EmailMalformed ==>
                saved.None? && alert == "Please enter a valid email address." && !closed && isEditMode == old(isEditMode)
      ensures editedCandidate.Some? && hasOnSave && CheckEmail(editedCandidate.value.email) == EmailOk ==>
                saved == Some(SavedRecord(editedCandidate.value, now)) && alert == "" && closed && !isEditMode
      ensures !(editedCandidate.Some? && hasOnSave) ==> saved.None? && alert == "" && closed && !isEditMode
    {
      saved, alert := None, "";
      if editedCandidate.Some? && hasOnSave {
        var e := editedCandidate.value;
        var check := CheckEmail(e.email);
        if check == EmailMissing {
          return None, "Email is a required field.", false;
        }
        if check == EmailMalformed {
          return None, "Please enter a valid email address.", false;
        }
        saved := Some(SavedRecord(e, now));
      }
      isEditMode := false;
      closed := true;
    }

    /** `handleEditToggle`: flips edit mode; leaving edit mode discards the
        edits by copying the `candidate` prop back. */
    method HandleEditToggle()
      modifies this
      ensures isEditMode == !old(isEditMode) && candidate == old(candidate)
      ensures old(isEditMode) ==> editedCandidate == candidate
      ensures !old(isEditMode) ==> editedCandidate == old(editedCandidate)
    {
      var wasEditing := isEditMode;
      isEditMode := !isEditMode;
      if wasEditing {
        editedCandidate := candidate;
      }
    }

    /** `handleInputChange` from one of the profile inputs of edit mode. */
    method HandleInputChange(field: ProfileField, value: string)
      requires editedCandidate.Some?
      modifies this`editedCandidate
      ensures editedCandidate.Some? && editedCandidate.value.profile == WithProfileField(old(editedCandidate.value.profile), field, value)
      ensures editedCandidate.value.(profile := old(editedCandidate.value.profile)) == old(editedCandidate.value)
    {
      var e := editedCandidate.value;
      editedCandidate := Some(e.(profile := WithProfileField(e.profile, field, value)));
    }

    /** `handleInputChange("email", …)`. */
    method HandleEmailChange(value: string)
      requires editedCandidate.Some?
      modifies this`editedCandidate
      ensures editedCandidate == Some(old(editedCandidate.value).(email := value))
    {
      editedCandidate := Some(editedCandidate.value.(email := value));
    }

    /** `handleInputChange("experience_years", parseInt(text) || 0)`. */
    method HandleExperienceChange(text: string)
      requires editedCandidate.Some?
      modifies this`editedCandidate
      ensures editedCandidate == Some(old(editedCandidate.value).(experienceYears := ExperienceFromInput(text)))
    {
      editedCandidate := Some(editedCandidate.value.(experienceYears := ExperienceFromInput(text)));
    }

    /** `handleTagChange`: copies the tags, overwrites one slot in place and
        stores the copy. */
    method HandleTagChange(index: int, value: string)
      requires editedCandidate.Some? && 0 <= index < |editedCandidate.value.tags|
      modifies this`editedCandidate
      ensures editedCandidate == Some(old(editedCandidate.value).(tags := old(editedCandidate.value.tags)[index := value]))
    {
      var newTags := SetSlot(editedCandidate.value.tags, index, value);
      assert newTags == editedCandidate.value.tags[index := value];
      editedCandidate := Some(editedCandidate.value.(tags := newTags));
    }

    method AddTag()
      requires editedCandidate.Some?
      modifies this`editedCandidate
      ensures editedCandidate == Some(old(editedCandidate.value).(tags := old(editedCandidate.value.tags) + [""]))
    {
      editedCandidate := Some(editedCandidate.value.(tags := editedCandidate.value.tags + [""]));
    }

    method RemoveTag(index: int)
      requires editedCandidate.Some?
      modifies this`editedCandidate
      ensures editedCandidate == Some(old(editedCandidate.value).(tags := RemoveAt(old(editedCandidate.value.tags), index)))
    {
      editedCandidate := Some(editedCandidate.value.(tags := RemoveAt(editedCandidate.value.tags, index)));
    }

    /** `handleDeleteInterview`: drops the entry at the index; nothing
        happens without a record. */
    method HandleDeleteInterview(indexToDelete: int)
      modifies this`editedCandidate
      ensures old(editedCandidate).None? ==> editedCandidate.None?
      ensures old(editedCandidate).Some? ==>
                editedCandidate == Some(old(editedCandidate.value).(interviews :=
                  RemoveAt(old(editedCandidate.value.interviews), indexToDelete)))
    {
      if editedCandidate.Some? {
        var e := editedCandidate.value;
        editedCandidate := Some(e.(interviews := RemoveAt(e.interviews, indexToDelete)));
      }
    }

    /** `handleUpdateInterview`: replaces the entry at the index; nothing
        happens without a record. */
    method HandleUpdateInterview(interviewIndex: int, updatedInterview: Interview)
      modifies this`editedCandidate
      ensures old(editedCandidate).None? ==> editedCandidate.None?
      ensures old(editedCandidate).Some? ==>
                editedCandidate == Some(old(editedCandidate.value).(interviews :=
                  ReplaceAt(old(editedCandidate.value.interviews), interviewIndex, updatedInterview)))
    {
      if editedCandidate.Some? {
        var e := editedCandidate.value;
        editedCandidate := Some(e.(interviews := ReplaceAt(e.interviews, interviewIndex, updatedInterview)));
      }
    }
  }

  /** Deleting an interview removes exactly that entry and keeps the others
      in order; an index outside the list changes nothing. */
  lemma DeleteInterviewRemovesOne(interviews: seq<Interview>, index: int)
    ensures 0 <= index < |interviews| ==>
              |RemoveAt(interviews, index)| == |interviews| - 1 &&
              (forall i :: 0 <= i < index ==> RemoveAt(interviews, index)[i] == interviews[i]) &&
              (forall i :: index <= i < |interviews| - 1 ==> RemoveAt(interviews, index)[i] == interviews[i + 1])
    ensures !(0 <= index < |interviews|) ==> RemoveAt(interviews, index) == interviews
  {
  }
}
