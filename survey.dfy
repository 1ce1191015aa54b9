/**
 The answer state of the security-awareness survey page: three single-choice
 questions, one multi-choice question, the validation run on submit and the
 one-way `submitted` flag.

 The pure part models the updater expressions handed to `setAnswers`; the
 class `SurveyForm` models the component's two pieces of state and the event
 handlers that replace them step by step.
 */
module Survey {

  /** The `answers` record: one string per radio question, a list for the checkboxes. */
  datatype Answers = Answers(
    passwordChange: string,
    twoFactor: seq<string>,
    phishing: string,
    updateSoftware: string)

  /** The state the page starts in: nothing chosen. */
  const InitialAnswers: Answers := Answers("", [], "", "")

  /** The four questions of the form. */
  datatype Question = PasswordChange | TwoFactor | Phishing | UpdateSoftware

  /** Whether question `q` has an answer in `a`: a non-empty string, or a non-empty list. */
  predicate Answered(a: Answers, q: Question) {
    match q
    case PasswordChange => a.passwordChange != ""
    case TwoFactor => a.twoFactor != []
    case Phishing => a.phishing != ""
    case UpdateSoftware => a.updateSoftware != ""
  }

  /** What the submit handler reports: the success or the error notification. */
  datatype Outcome = Accepted | Rejected

  // ---------------------------------------------------------------------------
  // The checkbox list: filtering and the order it keeps
  // ---------------------------------------------------------------------------

  /** `sub` is obtained from `s` by deleting some entries, keeping the order of the rest. */
  predicate IsSubsequence(sub: seq<string>, s: seq<string>)
    decreases |s|
  {
    if sub == [] then true
    else if s == [] then false
    else (sub[0] == s[0] && IsSubsequence(sub[1..], s[1..])) || IsSubsequence(sub, s[1..])
  }

  /** The list with every copy of `value` taken out (the `filter` of an unticked box). */
  function RemoveAll(items: seq<string>, value: string): (r: seq<string>)
    ensures |r| <= |items|
    ensures value !in r
    ensures forall x :: x in r <==> x in items && x != value
  {
    if items == [] then []
    else if items[0] == value then RemoveAll(items[1..], value)
    else [items[0]] + RemoveAll(items[1..], value)
  }

  /** Every entry the filter keeps was in the input, in the same order. */
  lemma {:induction false} RemoveAllIsSubsequence(items: seq<string>, value: string)
    ensures IsSubsequence(RemoveAll(items, value), items)
  {
    if items != [] {
      RemoveAllIsSubsequence(items[1..], value);
      var rest := RemoveAll(items[1..], value);
      if items[0] != value {
        assert RemoveAll(items, value) == [items[0]] + rest;
        assert ([items[0]] + rest)[1..] == rest;
      }
    }
  }

  /** Filtering drops exactly the copies of `value`: every other entry keeps its multiplicity. */
  lemma {:induction false} RemoveAllMultiset(items: seq<string>, value: string)
    ensures multiset(RemoveAll(items, value)) == multiset(items)[value := 0]
  {
    if items != [] {
      RemoveAllMultiset(items[1..], value);
      assert items == [items[0]] + items[1..];
    }
  }

  /** A subsequence never holds an entry more often than the sequence it comes from. */
  lemma {:induction false} SubsequenceMultiset(sub: seq<string>, s: seq<string>)
    requires IsSubsequence(sub, s)
    ensures multiset(sub) <= multiset(s)
    decreases |s|
  {
    if sub != [] {
      assert s == [s[0]] + s[1..];
      if sub[0] == s[0] && IsSubsequence(sub[1..], s[1..]) {
        SubsequenceMultiset(sub[1..], s[1..]);
        assert sub == [sub[0]] + sub[1..];
      } else {
        SubsequenceMultiset(sub, s[1..]);
      }
    }
  }

  /** Zeroing `value` in the multiset of `[x] + t`, as seen from `t`. */
  lemma ConsWithoutValue(x: string, t: seq<string>, value: string)
    ensures multiset([x] + t)[value := 0]
         == if x == value then multiset(t)[value := 0] else multiset{x} + multiset(t)[value := 0]
  {
    var lhs := multiset([x] + t)[value := 0];
    var rhs := if x == value then multiset(t)[value := 0] else multiset{x} + multiset(t)[value := 0];
    assert multiset([x] + t) == multiset{x} + multiset(t);
    forall y ensures lhs[y] == rhs[y] {}
  }

  /**
   The two facts above pin the filter down: the only subsequence of `items`
   holding every entry other than `value` as often as `items` does, and no
   `value`, is `RemoveAll(items, value)`.
   */
  lemma {:induction false} RemoveAllUnique(items: seq<string>, value: string, r: seq<string>)
    requires IsSubsequence(r, items)
    requires multiset(r) == multiset(items)[value := 0]
    ensures r == RemoveAll(items, value)
    decreases |items|
  {
    if items == [] {
      assert r == [];
    } else {
      var x, t := items[0], items[1..];
      assert items == [x] + t;
      ConsWithoutValue(x, t, value);
      if r != [] && r[0] == x && IsSubsequence(r[1..], t) {
        assert r == [x] + r[1..];
        assert multiset(r) == multiset{x} + multiset(r[1..]);
        assert multiset(r)[x] > 0;
        assert x != value;
        forall y ensures multiset(r[1..])[y] == multiset(t)[value := 0][y] {
          assert multiset(r)[y] == (multiset{x} + multiset(t)[value := 0])[y];
        }
        assert multiset(r[1..]) == multiset(t)[value := 0];
        RemoveAllUnique(t, value, r[1..]);
      } else {
        assert IsSubsequence(r, t);
        SubsequenceMultiset(r, t);
        assert multiset(items)[x] == multiset(t)[x] + 1;
        assert x == value;
        RemoveAllUnique(t, value, r);
      }
    }
  }

  /** Unticking a value that is not in the list leaves the list as it is. */
  lemma {:induction false} RemoveAllAbsent(items: seq<string>, value: string)
    requires value !in items
    ensures RemoveAll(items, value) == items
  {
    if items != [] {
      RemoveAllAbsent(items[1..], value);
      assert items == [items[0]] + items[1..];
    }
  }

  /** Removing `value` after appending `value` is the same as removing it from the original list. */
  lemma {:induction false} RemoveAllAppended(items: seq<string>, value: string)
    ensures RemoveAll(items + [value], value) == RemoveAll(items, value)
  {
    if items == [] {
      assert [] + [value] == [value];
    } else {
      assert (items + [value])[1..] == items[1..] + [value];
      RemoveAllAppended(items[1..], value);
    }
  }

  // ---------------------------------------------------------------------------
  // The updaters passed to setAnswers
  // ---------------------------------------------------------------------------

  /**
   The checkbox updater: a ticked box appends its value at the end (even when it
   is already present), an unticked box filters out every copy of it. The three
   radio answers are carried over.
   */
  function CheckboxUpdate(prev: Answers, checked: bool, value: string): (r: Answers)
    ensures r.passwordChange == prev.passwordChange
    ensures r.phishing == prev.phishing
    ensures r.updateSoftware == prev.updateSoftware
    ensures checked ==> |r.twoFactor| == |prev.twoFactor| + 1
    ensures checked ==> r.twoFactor[..|prev.twoFactor|] == prev.twoFactor
    ensures checked ==> r.twoFactor[|prev.twoFactor|] == value
    ensures !checked ==> value !in r.twoFactor
    ensures !checked ==> IsSubsequence(r.twoFactor, prev.twoFactor)
    ensures !checked ==> multiset(r.twoFactor) == multiset(prev.twoFactor)[value := 0]
  {
    RemoveAllIsSubsequence(prev.twoFactor, value);
    RemoveAllMultiset(prev.twoFactor, value);
    prev.(twoFactor := if checked then prev.twoFactor + [value] else RemoveAll(prev.twoFactor, value))
  }

  /** Question 1's radio updater: replaces `passwordChange` and nothing else. */
  function PasswordChangeUpdate(prev: Answers, value: string): (r: Answers)
    ensures r.passwordChange == value
    ensures r.twoFactor == prev.twoFactor
    ensures r.phishing == prev.phishing
    ensures r.updateSoftware == prev.updateSoftware
  {
    prev.(passwordChange := value)
  }

  /** Question 3's radio updater: replaces `phishing` and nothing else. */
  function PhishingUpdate(prev: Answers, value: string): (r: Answers)
    ensures r.phishing == value
    ensures r.passwordChange == prev.passwordChange
    ensures r.twoFactor == prev.twoFactor
    ensures r.updateSoftware == prev.updateSoftware
  {
    prev.(phishing := value)
  }

  /** Question 4's radio updater: replaces `updateSoftware` and nothing else. */
  function UpdateSoftwareUpdate(prev: Answers, value: string): (r: Answers)
    ensures r.updateSoftware == value
    ensures r.passwordChange == prev.passwordChange
    ensures r.twoFactor == prev.twoFactor
    ensures r.phishing == prev.phishing
  {
    prev.(updateSoftware := value)
  }

  /** Ticking a box and then unticking it restores a list that did not hold the value. */
  lemma TickUntickRoundTrip(a: Answers, value: string)
    requires value !in a.twoFactor
    ensures CheckboxUpdate(CheckboxUpdate(a, true, value), false, value) == a
  {
    RemoveAllAppended(a.twoFactor, value);
    RemoveAllAbsent(a.twoFactor, value);
  }

  /** Unticking the same box twice has the effect of unticking it once. */
  lemma UntickIdempotent(a: Answers, value: string)
    ensures CheckboxUpdate(CheckboxUpdate(a, false, value), false, value)
         == CheckboxUpdate(a, false, value)
  {
    RemoveAllAbsent(RemoveAll(a.twoFactor, value), value);
  }

  // ---------------------------------------------------------------------------
  // Submission
  // ---------------------------------------------------------------------------

  /**
   The submit guard: rejected when the first, third or fourth answer is the
   empty string or no box is ticked; accepted otherwise.
   */
  function Validate(a: Answers): (o: Outcome)
    ensures o == Accepted <==> forall q: Question :: Answered(a, q)
    ensures o == Rejected <==> exists q: Question :: !Answered(a, q)
  {
    if a.passwordChange == "" || |a.twoFactor| == 0 || a.phishing == "" || a.updateSoftware == "" then
      assert !Answered(a, if a.passwordChange == "" then PasswordChange
                          else if |a.twoFactor| == 0 then TwoFactor
                          else if a.phishing == "" then Phishing
                          else UpdateSoftware);
      Rejected
    else
      Accepted
  }

  /** The fresh form is never accepted: nothing has been answered yet. */
  lemma InitialRejected()
    ensures Validate(InitialAnswers) == Rejected
  {
    assert !Answered(InitialAnswers, PasswordChange);
  }

  // ---------------------------------------------------------------------------
  // The page as a sequence of user events
  // ---------------------------------------------------------------------------

  /** The component's whole state. */
  datatype FormState = FormState(answers: Answers, submitted: bool)

  const InitialState: FormState := FormState(InitialAnswers, false)

  /** The user actions the page reacts to. */
  datatype Event =
    | CheckboxChanged(checked: bool, value: string)
    | PasswordChangeSelected(value: string)
    | PhishingSelected(value: string)
    | UpdateSoftwareSelected(value: string)
    | SubmitPressed

  /** The state after one event: an updater for the answer events, the guarded flag for submit. */
  function Step(s: FormState, e: Event): (r: FormState)
    ensures s.submitted ==> r.submitted
    ensures !e.SubmitPressed? ==> r.submitted == s.submitted
    ensures e.SubmitPressed? ==> r.answers == s.answers
    ensures e.SubmitPressed? ==> (r.submitted <==> s.submitted || Validate(s.answers) == Accepted)
  {
    match e
    case CheckboxChanged(checked, value) => s.(answers := CheckboxUpdate(s.answers, checked, value))
    case PasswordChangeSelected(value) => s.(answers := PasswordChangeUpdate(s.answers, value))
    case PhishingSelected(value) => s.(answers := PhishingUpdate(s.answers, value))
    case UpdateSoftwareSelected(value) => s.(answers := UpdateSoftwareUpdate(s.answers, value))
    case SubmitPressed => if Validate(s.answers) == Accepted then s.(submitted := true) else s
  }

  /** The state after a sequence of events, applied in order. */
  function Run(s: FormState, events: seq<Event>): FormState
    decreases |events|
  {
    if events == [] then s
    else Step(Run(s, events[..|events| - 1]), events[|events| - 1])
  }

  /** Once `submitted` is true, no sequence of events makes it false again. */
  lemma {:induction false} SubmittedStaysTrue(s: FormState, events: seq<Event>)
    requires s.submitted
    ensures Run(s, events).submitted
    decreases |events|
  {
    if events != [] {
      SubmittedStaysTrue(s, events[..|events| - 1]);
    }
  }

  /**
   A form that ends up submitted from an unsubmitted state went through a submit
   event pressed while every question had an answer.
   */
  lemma {:induction false} SubmittedOnlyByValidSubmit(s: FormState, events: seq<Event>)
    requires !s.submitted
    requires Run(s, events).submitted
    ensures exists i :: 0 <= i < |events| && events[i] == SubmitPressed
                        && Validate(Run(s, events[..i]).answers) == Accepted
    decreases |events|
  {
    var n := |events| - 1;
    var before := events[..n];
    if Run(s, before).submitted {
      SubmittedOnlyByValidSubmit(s, before);
      var i :| 0 <= i < |before| && before[i] == SubmitPressed
               && Validate(Run(s, before[..i]).answers) == Accepted;
      assert before[..i] == events[..i];
      assert events[i] == SubmitPressed;
    } else {
      assert before == events[..n];
      assert events[n] == SubmitPressed;
    }
  }

  /** Events that are not submits never touch the flag. */
  lemma {:induction false} AnswerEventsKeepFlag(s: FormState, events: seq<Event>)
    requires forall i :: 0 <= i < |events| ==> !events[i].SubmitPressed?
    ensures Run(s, events).submitted == s.submitted
    decreases |events|
  {
    if events != [] {
      AnswerEventsKeepFlag(s, events[..|events| - 1]);
    }
  }

  // ---------------------------------------------------------------------------
  // The component
  // ---------------------------------------------------------------------------

  /** The survey page's state and its event handlers. */
  class SurveyForm {
    var answers: Answers
    var submitted: bool

    function State(): FormState
      reads this
    {
      FormState(answers, submitted)
    }

    /** The page mounts with no answers and not submitted. */
    constructor ()
      ensures answers == InitialAnswers && !submitted
    {
      answers := InitialAnswers;
      submitted := false;
    }

    /** A checkbox of question 2 changed. */
    method HandleCheckboxChange(checked: bool, value: string)
      modifies this
      ensures State() == Step(old(State()), CheckboxChanged(checked, value))
      ensures answers == CheckboxUpdate(old(answers), checked, value)
      ensures submitted == old(submitted)
    {
      answers := CheckboxUpdate(answers, checked, value);
    }

    /** A radio button of question 1 was chosen. */
    method SelectPasswordChange(value: string)
      modifies this
      ensures State() == Step(old(State()), PasswordChangeSelected(value))
      ensures answers == old(answers).(passwordChange := value)
      ensures submitted == old(submitted)
    {
      answers := PasswordChangeUpdate(answers, value);
    }

    /** A radio button of question 3 was chosen. */
    method SelectPhishing(value: string)
      modifies this
      ensures State() == Step(old(State()), PhishingSelected(value))
      ensures answers == old(answers).(phishing := value)
      ensures submitted == old(submitted)
    {
      answers := PhishingUpdate(answers, value);
    }

    /** A radio button of question 4 was chosen. */
    method SelectUpdateSoftware(value: string)
      modifies this
      ensures State() == Step(old(State()), UpdateSoftwareSelected(value))
      ensures answers == old(answers).(updateSoftware := value)
      ensures submitted == old(submitted)
    {
      answers := UpdateSoftwareUpdate(answers, value);
    }

    /**
     The submit button: an incomplete form is rejected and the flag left alone;
     a complete one sets the flag. The answers are never changed.
     */
    method HandleSubmit() returns (outcome: Outcome)
      modifies this
      ensures State() == Step(old(State()), SubmitPressed)
      ensures answers == old(answers)
      ensures outcome == Accepted <==> forall q: Question :: Answered(answers, q)
      ensures outcome == Rejected ==> submitted == old(submitted)
      ensures outcome == Accepted ==> submitted
    {
      outcome := Validate(answers);
      if outcome == Rejected {
        return;
      }
      submitted := true;
    }
  }
}
