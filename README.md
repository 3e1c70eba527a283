# Prescription form and patient cards, modelled in Dafny

This project models the two pieces of logic in a small React front-end for a
prescription workflow:

- the **new-prescription form** (`src/components/PrescriptionForm.tsx`): six
  state cells (`patientId`, `drugName`, `dosage`, `error`, `loading`,
  `success`), the submit handler that validates the draft, issues one create
  call with a derived `datePrescribed`, and then clears or keeps the draft
  depending on the call's outcome, the submit button that is disabled while
  `loading`, the field change handlers, and the timer that hides the success
  notice;
- the **patient card avatar** (`src/components/PatientList.tsx`): the initials
  `fullName.split(' ').map(n => n[0]).join('').toUpperCase()` and the gradient
  `colors[index % colors.length]`.

Files:

- `wrappers.dfy` — `Option`, standing for `T | undefined`.
- `records.dfy` — `Patient`, `Prescription` and `NewPrescription` (the body of
  a create call, a prescription without its `id`).
- `js_strings.dfy` — the JavaScript built-ins used: `split` on one character,
  `join`, ASCII `toUpperCase`, with their round trips and algebra.
- `prescription_form.dfy` — the form as class `Form` whose fields are the six
  cells. `handleSubmit` is async and pauses once, at the `await` of the create
  call; it is modelled as `HandleSubmit` (up to and including issuing the call)
  and `Settle` (what runs when the call resolves or throws), with `Submit`
  running both back to back. `Press` is a submit intent from the user, which
  the disabled button swallows while a call is outstanding. The gateway's
  result (`Outcome`) and the clock (an ISO timestamp string) are parameters.
  Two session methods exercise the contracts end to end.
- `patient_list.dfy` — `Initials`, `Words`, `ColorClass` and their lemmas.

## Model

| member | source | states |
|---|---|---|
| `JsStrings.Split` | src/components/PatientList.tsx:100 | `split` on one character returns at least one part, and no part contains the separator |
| `JsStrings.JoinSplit` | src/components/PatientList.tsx:100 | joining the parts of a split with the separator gives back the original string |
| `JsStrings.SplitJoin` | src/components/PatientList.tsx:100 | splitting a join of separator-free parts gives back the parts (inverse of `JoinSplit`) |
| `JsStrings.SplitCons` | src/components/PatientList.tsx:100 | a separator-free prefix followed by the separator becomes the first part of the split |
| `JsStrings.SplitWithoutSep` | src/components/PatientList.tsx:100 | a string without the separator splits into itself alone |
| `JsStrings.SplitAtSep` | src/components/PatientList.tsx:100 | splitting `a + sep + b` gives the parts of `a` followed by the parts of `b` |
| `JsStrings.SplitFirst` | src/components/PrescriptionForm.tsx:78 | the first part of a split is a prefix of the string, followed by the separator or by nothing |
| `JsStrings.JoinEmptyAppend` | src/components/PatientList.tsx:100 | `join('')` of a concatenation is the concatenation of the joins |
| `JsStrings.JoinEmptyCons` | src/components/PatientList.tsx:100 | `join('')` of `[x, ...rest]` is `x` followed by the join of `rest` |
| `JsStrings.Join` | src/components/PatientList.tsx:100 | `join(sep)` of a non-empty list starts with its first part; with `JoinSplit`/`SplitJoin` it is the inverse of `split` |
| `JsStrings.UpperChar` | src/components/PatientList.tsx:100 | a lower-case ASCII letter becomes the capital at the same place in the alphabet; every other character is kept; the result is never lower-case |
| `JsStrings.ToUpperCase` | src/components/PatientList.tsx:100 | upper-casing keeps the length, maps every character through `UpperChar`, and leaves no lower-case ASCII letter |
| `JsStrings.UpperAppend` | src/components/PatientList.tsx:100 | upper-casing distributes over concatenation |
| `PatientList.FirstChar` | src/components/PatientList.tsx:100 | `n[0]` is `undefined` exactly for the empty segment, and otherwise the segment's first character |
| `PatientList.Rendered` | src/components/PatientList.tsx:100 | `join` renders `undefined` as `""` and a character as that one-character string |
| `PatientList.RenderedHeads` | src/components/PatientList.tsx:100 | `map(n => n[0])` keeps one element per segment, `undefined` (joined as `""`) for an empty segment |
| `PatientList.NonEmpty` | src/components/PatientList.tsx:100 | the segments kept as words are all non-empty |
| `PatientList.NonEmptyShorter` | src/components/PatientList.tsx:100 | there are no more words than segments |
| `PatientList.Initials` | src/components/PatientList.tsx:100 | the avatar text holds no lower-case ASCII letter and at most one character per segment of the split on `' '`; `InitialsAreFirstLetters`, `InitialsWithoutSpace` and `InitialsAtSpace` characterise it exactly |
| `PatientList.JoinedHeads` | src/components/PatientList.tsx:100 | the joined heads of some segments are exactly the first characters of the non-empty segments, in order |
| `PatientList.InitialsAreFirstLetters` | src/components/PatientList.tsx:100 | the initials have one character per non-empty segment of the split on `' '`, the k-th being the upper-cased first character of the k-th such segment |
| `PatientList.InitialsWithoutSpace` | src/components/PatientList.tsx:100 | a name with no `' '` (tabs do not separate) has at most one initial; the empty name has none |
| `PatientList.RenderedHeadsAppend` | src/components/PatientList.tsx:100 | the per-segment map distributes over concatenation |
| `PatientList.InitialsAtSpace` | src/components/PatientList.tsx:100 | the initials of `a + " " + b` are those of `a` followed by those of `b`, so leading, trailing and repeated spaces add nothing |
| `PatientList.ColorClass` | src/components/PatientList.tsx:82-90 | the card at any position gets one of the six listed gradients |
| `PatientList.ColorPeriodic` | src/components/PatientList.tsx:90 | positions `index` and `index + 6k` get the same gradient |
| `PatientList.ColorsDistinctWithinSix` | src/components/PatientList.tsx:82-90 | six consecutive cards get six different gradients |
| `PrescriptionForm.Rejects` | src/components/PrescriptionForm.tsx:64 | the guard `!patientId \|\| !drugName \|\| !dosage` holds exactly when the patient is unset or 0 or a text field is `""` |
| `PrescriptionForm.BlankTextAccepted` | src/components/PrescriptionForm.tsx:64 | a chosen non-zero patient with drug name and dosage made only of spaces passes the guard |
| `PrescriptionForm.DatePart` | src/components/PrescriptionForm.tsx:78 | `datePrescribed` is the prefix of the timestamp up to its first `'T'` (or all of it), and holds no `'T'` |
| `PrescriptionForm.DatePartOfIsoTimestamp` | src/components/PrescriptionForm.tsx:78 | for a `toISOString` timestamp the derived date is its `YYYY-MM-DD` part |
| `PrescriptionForm.RequestFor` | src/components/PrescriptionForm.tsx:74-79 | the create request carries the draft fields unchanged and `datePrescribed == DatePart(timestamp)`, a prefix of the timestamp with no `'T'` |
| `PrescriptionForm.Form.constructor` | src/components/PrescriptionForm.tsx:40-45 | the cells start unset, empty, empty, empty, false, false |
| `PrescriptionForm.Form.SelectPatient` | src/components/PrescriptionForm.tsx:129-134 | choosing a patient stores its id; the placeholder stores `Number('') = 0`; other cells unchanged |
| `PrescriptionForm.Form.EditDrugName` | src/components/PrescriptionForm.tsx:152 | only `drugName` changes, to the typed value |
| `PrescriptionForm.Form.EditDosage` | src/components/PrescriptionForm.tsx:168 | only `dosage` changes, to the typed value |
| `PrescriptionForm.Form.HandleSubmit` | src/components/PrescriptionForm.tsx:60-79 | a rejected draft sets only the validation message and sends nothing; an accepted one sends exactly one request (draft plus date), sets `loading` and clears `error`, draft and `success` unchanged |
| `PrescriptionForm.Form.Settle` | src/components/PrescriptionForm.tsx:80-91 | on success the draft is cleared and `success` set; on failure the draft and `success` are kept and the failure message set; `loading` ends false |
| `PrescriptionForm.Form.Submit` | src/components/PrescriptionForm.tsx:60-92 | the end state of the whole handler for its three outcomes: rejected, created, failed |
| `PrescriptionForm.Form.Press` | src/components/PrescriptionForm.tsx:177-181 | while `loading` the button is `disabled`, so a submit intent sends nothing and changes nothing; otherwise the handler runs |
| `PrescriptionForm.Form.TimerFires` | src/components/PrescriptionForm.tsx:86 | the timer sets `success` to false and changes no other cell |
| `PrescriptionForm.SuccessfulSession` | src/components/PrescriptionForm.tsx:60-92 | a draft for patient 7 sends exactly the request `{7, "Amoxicillin", "500mg twice daily", "2025-06-01"}`, and a second press while loading sends nothing |
| `PrescriptionForm.RejectedThenFailedSession` | src/components/PrescriptionForm.tsx:60-92 | the placeholder patient is rejected without a call; after a failed call a blank-only drug name and the patient are kept |

## Left out

- The create call itself (`src/service/api.ts`, an HTTP POST) is not modelled; its result is the `Outcome` parameter of `Settle` and `Submit`. The two list calls of the same file are left out too.
- The mount-time patient fetches of both components and their `loading` flag in the patient list: asynchronous I/O with nothing to prove.
- `src/components/PrescriptionHistory.tsx` and `src/App.tsx`: a table render with locale-dependent date formatting, and routing.
- The clock: `new Date()` is replaced by a timestamp-string parameter. `toISOString` writes UTC, so `datePrescribed` is the UTC date, which near midnight can differ from the user's local day; only the date part and the `'T'` of `toISOString`'s format are described (`IsIsoTimestamp`), and six-digit extended years are covered by `DatePart`'s general contract only.
- The 3000 ms of the timer: `TimerFires` is an event with no duration. Each success schedules its own timer, so an earlier timer can hide a later success notice early; the model allows this by letting `TimerFires` happen at any time.
- React's batching of setter calls and re-rendering, JSX markup and CSS classes, and the browser's `required` attributes (only the check in the handler is modelled).
- `PrescriptionForm.Form.Settle`: requires `loading`, because its continuation exists only after `HandleSubmit` issued a call; two calls outstanding at once, possible only if the disabled button were bypassed, are not modelled.
- `PrescriptionForm.Form.SelectPatient`: stores a whole number; `NaN` and non-integer numbers cannot come out of the select, whose values are `""` and patient ids, and are not modelled.
- `JsStrings.ToUpperCase`: upper-cases ASCII letters only; JavaScript also upper-cases non-ASCII letters, sometimes changing the length (`'ß'` becomes `"SS"`), and `n[0]` reads a UTF-16 code unit rather than a character, so the initials model is faithful for ASCII names.
- The returned `Prescription` record of a successful create is ignored by the form and carries no property.
