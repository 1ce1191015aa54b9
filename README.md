# Survey form answer state

A Dafny model of the answer state behind the security-awareness survey page
(`src/pages/Survey.tsx`). The page has three single-choice questions and one
multi-choice question:

- how often passwords are changed (`passwordChange`)
- which security features are used (`twoFactor`)
- what is done with a suspicious link (`phishing`)
- how often software is updated (`updateSoftware`)

It also has a submit button. The updaters passed to `setAnswers` are modelled
as pure functions on the `Answers` datatype:

- the checkbox updater appends or filters
- each radio updater replaces one field

`Validate` is the guard in `handleSubmit`. The outcome `Accepted` or `Rejected`
stands for the success or error notification.

The class `Survey.SurveyForm` holds the component's two pieces of state,
`answers` and `submitted`. Its handler methods say what each handler does to
them. `Step` and `Run` give the same handlers a pure semantics over a sequence
of user events. That semantics states the properties of the one-way
`submitted` flag over whole histories.

The unticking filter is characterised independently of its recursive
definition. Its result is a subsequence of the input (the order of the kept
entries is preserved). Its multiset is the input's with `value` zeroed.
`RemoveAllUnique` proves that these two facts determine the result.

## Model

| member | source | states |
|---|---|---|
| `Survey.RemoveAll` | src/pages/Survey.tsx:26 | the filtered list holds no copy of the unticked value, holds exactly the other entries of the input, and is no longer than the input |
| `Survey.RemoveAllIsSubsequence` | src/pages/Survey.tsx:26 | the entries kept by the filter appear in the input in the same relative order |
| `Survey.RemoveAllMultiset` | src/pages/Survey.tsx:26 | every copy of the value is removed and every other entry keeps its multiplicity |
| `Survey.RemoveAllUnique` | src/pages/Survey.tsx:26 | any order-preserving sublist with that multiset equals the filter's result, so order and multiplicities fully determine it |
| `Survey.RemoveAllAbsent` | src/pages/Survey.tsx:26 | filtering out a value that is not in the list leaves the list unchanged |
| `Survey.RemoveAllAppended` | src/pages/Survey.tsx:24-26 | filtering a value out after appending it gives the same list as filtering it out of the original |
| `Survey.CheckboxUpdate` | src/pages/Survey.tsx:21-28 | ticking appends the value at the end, growing the list by exactly one even if the value is already present, and keeps the earlier entries in order; unticking leaves the value absent, keeps the other entries in order and with their multiplicities; the three radio answers are unchanged either way |
| `Survey.PasswordChangeUpdate` | src/pages/Survey.tsx:87-88 | question 1's handler sets `passwordChange` to the chosen value and leaves the other three fields unchanged |
| `Survey.PhishingUpdate` | src/pages/Survey.tsx:176-177 | question 3's handler sets `phishing` to the chosen value and leaves the other three fields unchanged |
| `Survey.UpdateSoftwareUpdate` | src/pages/Survey.tsx:208-209 | question 4's handler sets `updateSoftware` to the chosen value and leaves the other three fields unchanged |
| `Survey.TickUntickRoundTrip` | src/pages/Survey.tsx:21-28 | ticking and then unticking a box whose value was not in the list restores the answers exactly |
| `Survey.UntickIdempotent` | src/pages/Survey.tsx:26 | unticking the same box twice has the same effect as unticking it once |
| `Survey.Validate` | src/pages/Survey.tsx:31-34 | submission is accepted exactly when every one of the four questions is answered (non-empty string, non-empty list) and rejected exactly when some question is unanswered |
| `Survey.InitialRejected` | src/pages/Survey.tsx:14-19 | the initial empty answers are rejected by the submit guard |
| `Survey.Step` | src/pages/Survey.tsx:21-38 | no event resets `submitted` to false; answer events leave the flag alone; submit leaves the answers alone and sets the flag exactly when it was already set or the answers pass validation |
| `Survey.SubmittedStaysTrue` | src/pages/Survey.tsx:13-38 | once `submitted` is true it stays true after any sequence of events |
| `Survey.SubmittedOnlyByValidSubmit` | src/pages/Survey.tsx:30-38 | if the form goes from unsubmitted to submitted over a sequence of events, some event in it was a submit pressed while all answers were valid |
| `Survey.AnswerEventsKeepFlag` | src/pages/Survey.tsx:21-28 | a sequence of answer changes without a submit leaves `submitted` as it was |
| `Survey.SurveyForm.constructor` | src/pages/Survey.tsx:13-19 | the page starts with all answers empty and `submitted` false |
| `Survey.SurveyForm.HandleCheckboxChange` | src/pages/Survey.tsx:21-28 | the new answers are the checkbox update of the old ones; `submitted` is unchanged |
| `Survey.SurveyForm.SelectPasswordChange` | src/pages/Survey.tsx:87-88 | only `passwordChange` is replaced; `submitted` is unchanged |
| `Survey.SurveyForm.SelectPhishing` | src/pages/Survey.tsx:176-177 | only `phishing` is replaced; `submitted` is unchanged |
| `Survey.SurveyForm.SelectUpdateSoftware` | src/pages/Survey.tsx:208-209 | only `updateSoftware` is replaced; `submitted` is unchanged |
| `Survey.SurveyForm.HandleSubmit` | src/pages/Survey.tsx:30-38 | the answers are never modified; the result is `Accepted` exactly when every question is answered; a rejection leaves `submitted` as it was; an acceptance sets it to true |

## Left out

- Rendering, CSS classes, the label texts and the UI-library components are presentation only.
- The `toast.error` and `toast.success` notifications are not modelled as side effects. They appear only as the `Rejected` and `Accepted` result of `HandleSubmit`.
- The `navigate("/")` calls (the cancel button, and the home button on the thank-you view) are router plumbing. So is the `/survey` button of `src/pages/Index.tsx`, which has no other logic and is not part of this model.
- The page stops rendering the form once `submitted` is true, so the handlers cannot fire after that. The handlers themselves have no such guard, and the model does not require `!submitted` either.
- React batching and stale closures are not modelled: `handleSubmit` reads the `answers` of the last render. The model assumes each event sees the state left by the previous one.
- The `checked as boolean` cast is a type assertion only. The model takes `checked` to be a boolean, which is what these checkboxes, bound to a boolean `checked` prop, pass.
- The model does not restrict radio values to the listed options, and does not make "none" exclusive of the other boxes. The source enforces neither; validation is only a non-empty check.
- The password-strength scorer and the breach-count lookup are not part of this model: their source files are not among those modelled.
