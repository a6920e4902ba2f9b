# Intake funnel wizard — a Dafny model

A model of the eight-step lead-intake wizard of the intake-funnel widget
(`IntakeFunnel` component). The wizard holds a step position in [1, 8], the
accumulated answers (`FormData`), and the `isSubmitting` / `isSubmitted`
flags. Steps 1 and 2 are single choices that advance on their own; steps 3,
4 and 6 are multi-selects; steps 5 and 7 are free text with a skip; step 8
collects contact details and submits. Submitting calls an optional host
callback and, when a webhook URL is configured, POSTs a normalised payload.

Modules, one per part of the component:

- `Form` (`form.dfy`): `FormData`, its initial value, closed field tags
  (`SingleField`, `ListField`, `TextField`) and the three field setters, each
  with a "nothing else changes" frame.
- `Navigation` (`navigation.dfy`): `goNext` / `goBack`, clamped to [1, 8].
- `MultiSelect` (`multiselect.dfy`): the multi-select toggle (filter out every
  occurrence, or append).
- `Gates` (`gates.dfy`): the `disabled=` expressions of the Next and Submit
  buttons, written with JavaScript string truthiness, and what they mean.
- `Payload` (`payload.dfy`): `join(", ")`, the payload literal, and a split
  that reads joined list answers back.
- `Submission` (`submission.dfy`): the submit handler's control flow; the
  callback and the request are outcomes (returns / throws, responds / rejects).
- `Wizard` (`wizard.dfy`): the state, the closed `Event` type, the reducer
  `Step`, the events each step view offers (`Offered`), traces, and the
  invariant every reachable state keeps.
- `AutoAdvance` (`autoadvance.dfy`): the 300 ms auto-advance timers after a
  single choice, as written and corrected (see Findings).

The model follows the code in these points:

- A throwing callback or a rejected request leaves `isSubmitted` false: the
  `catch` only logs, so the thank-you screen is not shown. A response of any
  HTTP status resolves `fetch` and does reach the thank-you screen.
- The list answers are ordered arrays, not sets: toggling a present value
  twice moves it to the end.
- The submit handler has no re-entrancy check of its own; the only guard is
  the disabled Submit button, which the model expresses in `Offered`.
- An absent webhook URL and the empty string behave alike (`if (webhookUrl)`),
  so the model represents both as `""`.

The submit handler runs synchronously up to its single `await`. The model
splits it into `PressSubmit` (callback, then the request is sent, or the
handler finishes when there is no webhook or the callback threw) and
`FetchSettled` (the request settles). In between, `isSubmitting` is true
and Submit is disabled, while the contact inputs stay editable.

## Model

| member | source | states |
|---|---|---|
| Form.SetSingle | src/components/IntakeFunnel.tsx:50-51 | a single choice stores `Some(value)` in the named field and every other field keeps its value |
| Form.SetSingleLastWins | src/components/IntakeFunnel.tsx:50-51 | choosing twice on the same field keeps only the second answer |
| Form.SetList | src/components/IntakeFunnel.tsx:55-62 | a toggle writes only the named list field |
| Form.SetText | src/components/IntakeFunnel.tsx:65-67 | a text edit stores the value in the named field and every other field keeps its value |
| Navigation.GoNext | src/components/IntakeFunnel.tsx:47 | from [1, 8] the step stays in [1, 8]; below 8 it moves up by exactly one, at 8 it stays |
| Navigation.GoBack | src/components/IntakeFunnel.tsx:48 | from [1, 8] the step stays in [1, 8]; above 1 it moves down by exactly one, at 1 it stays |
| Navigation.BackUndoesNext | src/components/IntakeFunnel.tsx:47-48 | on steps 1 to 7, back after next returns to the same step |
| Navigation.NextUndoesBack | src/components/IntakeFunnel.tsx:47-48 | on steps 2 to 8, next after back returns to the same step |
| Navigation.MovesStayInRange | src/components/IntakeFunnel.tsx:47-48 | any sequence of next/back moves from [1, 8] stays in [1, 8], and after n moves ends within n steps of where it started |
| Navigation.ForwardReachesLast | src/components/IntakeFunnel.tsx:47 | n forward moves from s reach min(s + n, 8) |
| MultiSelect.RemoveAll | src/components/IntakeFunnel.tsx:59 | the filter removes every occurrence of the value and keeps every other value with its multiplicity; it keeps a duplicate-free list duplicate-free |
| MultiSelect.RemoveAllAppend | src/components/IntakeFunnel.tsx:59 | the filter distributes over concatenation, so the kept values keep their order |
| MultiSelect.Toggle | src/components/IntakeFunnel.tsx:57-60 | after a toggle the value is present iff it was absent; other values are untouched; an absent value is appended at the end; duplicate-freedom is kept |
| MultiSelect.ToggleAbsentTwice | src/components/IntakeFunnel.tsx:57-60 | toggling an absent value twice restores the exact original list |
| MultiSelect.TogglePresentTwice | src/components/IntakeFunnel.tsx:57-60 | toggling a present value twice removes every copy of it and appends one at the end: the same set of values, not necessarily the same order |
| MultiSelect.TogglePresentTwicePermutes | src/components/IntakeFunnel.tsx:57-60 | on a duplicate-free list, toggling a present value twice gives a duplicate-free list of the same length holding the same values, a permutation of the original |
| Gates.And | src/components/IntakeFunnel.tsx:542 | JavaScript `&&` on strings is truthy iff both operands are non-empty |
| Gates.ContactValidity | src/components/IntakeFunnel.tsx:542 | `isValid` is truthy iff first name, last name, email and phone are all non-empty |
| Gates.NextEnabled | src/components/IntakeFunnel.tsx:327-522 | Next is enabled on steps 3, 4, 6 iff the step's list is non-empty, on steps 5, 7 iff the step's text is non-empty, and on no other step |
| Gates.SubmitEnabled | src/components/IntakeFunnel.tsx:542-591 | Submit is enabled iff the four contact fields are non-empty and no submission is in flight |
| Payload.JoinSnoc | src/components/IntakeFunnel.tsx:88 | joining one more value onto a non-empty list appends ", " and the value |
| Payload.SplitJoin | src/components/IntakeFunnel.tsx:88-91 | a joined list of non-empty, comma-free values splits back into the same list (the empty list joins to "") |
| Payload.Or | src/components/IntakeFunnel.tsx:90-92 | JavaScript `\|\|` on strings yields one of its two operands, and a non-empty one whenever either operand is non-empty |
| Payload.Build | src/components/IntakeFunnel.tsx:80-96 | contact fields verbatim; exactly seven custom fields with keys in the fixed order; lists joined with ", "; "Prefer not to answer", "None", "No website" for empty answers; source "Intake Funnel" and tags ["intake-funnel", "new-lead"] |
| Payload.ListAnswersRecoverable | src/components/IntakeFunnel.tsx:85-93 | the three list answers can be read back from the payload's custom fields |
| Payload.UntouchedOptionalAnswers | src/components/IntakeFunnel.tsx:90-92 | skipped, never-answered steps 5, 6 and 7 send their placeholders |
| Submission.Begin | src/components/IntakeFunnel.tsx:69-103 | the callback, if present, is invoked first; a request is sent iff a webhook is configured and the callback did not throw, and it carries the built payload; otherwise the handler finishes, submitted iff the callback did not throw |
| Submission.Settle | src/components/IntakeFunnel.tsx:98-110 | a response of any status completes the submission; a rejection only logs |
| Submission.HandleSubmit | src/components/IntakeFunnel.tsx:69-111 | submitted iff neither the callback nor the request throws; the callback comes before the request; the request is sent iff a webhook is configured and the callback returned; an error is logged iff not submitted |
| Wizard.Step | src/components/IntakeFunnel.tsx:47-111 | the reducer: a choice writes one field and advances one clamped step; a toggle or edit writes one field and keeps the step; next, skip and back move the step and keep the answers; a settled request clears `isSubmitting`; a submitted wizard stays submitted |
| Wizard.Run | src/components/IntakeFunnel.tsx:47-48 | any sequence of events keeps the step in [1, 8] and never undoes a completed submission |
| Wizard.InitInv | src/components/IntakeFunnel.tsx:28-43 | the initial state satisfies the wizard invariant |
| Wizard.StepKeepsInv | src/components/IntakeFunnel.tsx:153-216 | every event the current step view offers keeps the invariant: step in range, answers drawn from the views' options without duplicates, steps 1 to 4 answered before the wizard moves past them, a request in flight only on step 8 with a webhook |
| Wizard.OnlyBackGoesBack | src/components/IntakeFunnel.tsx:153-216 | the step only goes down through Back, which only steps 2 to 7 offer |
| Wizard.ContactStepIsLast | src/components/IntakeFunnel.tsx:209-216 | step 8 offers no Back, so every offered event there stays on step 8 |
| Wizard.RunKeepsInv | src/components/IntakeFunnel.tsx:153-216 | every trace of offered events keeps the invariant |
| Wizard.ReachableInv | src/components/IntakeFunnel.tsx:28-216 | every state reachable from the initial state satisfies the invariant |
| Wizard.PostedBodyComplete | src/components/IntakeFunnel.tsx:80-102 | a request sent from a reachable state carries the payload of the current answers, with all contact fields, both single choices and non-empty insurance lines and improvements, and its insurance lines, improvements and lead-generation answers read back exactly (an unanswered lead generation reads back from its default) |
| Wizard.NoSecondPostInFlight | src/components/IntakeFunnel.tsx:588-592 | while a request is in flight no offered event sends another request |
| Wizard.SubmitMatchesHandler | src/components/IntakeFunnel.tsx:69-111 | pressing Submit and letting the request settle has exactly the handler's effects and outcome, clears `isSubmitting` on every path, and keeps the step and answers |
| Wizard.TypedThenSkipped | src/components/IntakeFunnel.tsx:182-189 | revenue typed on step 5 and then skipped advances to step 6 and still appears in the payload |
| AutoAdvance.Click | src/components/IntakeFunnel.tsx:50-53 | a click writes the choice at once and schedules one advance from the current step |
| AutoAdvance.Clicks | src/components/IntakeFunnel.tsx:50-53 | a burst of clicks keeps the last answer and schedules one advance per click |
| AutoAdvance.FireAllAsWritten | src/components/IntakeFunnel.tsx:52 | firing the timers changes no answer and leaves none pending |
| AutoAdvance.AsWrittenAdvancesPerTimer | src/components/IntakeFunnel.tsx:47-52 | as written, n pending timers advance the step n times |
| AutoAdvance.DoubleClickSkipsStep | src/components/IntakeFunnel.tsx:50-53 | as written, two clicks on step 1 land on step 3 with no business type, a state outside the wizard invariant |
| AutoAdvance.FireAllCorrected | src/components/IntakeFunnel.tsx:52 | firing the corrected timers changes no answer and leaves none pending |
| AutoAdvance.StaleTimersIgnored | src/components/IntakeFunnel.tsx:52 | corrected timers from a step already left do nothing |
| AutoAdvance.CorrectedAdvancesOnce | src/components/IntakeFunnel.tsx:50-53 | corrected, any burst of clicks advances exactly one step and keeps the last answer, as the reducer does |

## Left out

- Rendering: JSX, CSS classes, option labels, icons, the avatar fallback and the consent text. They are presentation only. The option values the choice views send are kept, in `Wizard`.
- The progress percentage and progress bar, which are floating-point display math.
- `fetch`, `JSON.stringify` and `console.error`. They are foreign I/O; the request is an `Effect` carrying the payload, and its result is an outcome.
- The host callback's own behaviour. Only whether it returns or throws is modelled.
- React state batching, stale closures and strict-mode double rendering.
- Mounting: style injection, `createRoot`, auto-mount from a data attribute, and the global registry (`src/main.tsx`). This is platform glue.
- The build configuration (`vite.config.ts`).
- Wizard.Step: the auto-advance after a single choice happens at once instead of after 300 ms. `AutoAdvance` models the timers separately.
- Wizard.StepKeepsInv: the invariant's clause that both single choices are answered once the wizard has moved past them holds for the immediate-advance reducer only; the component as written can break it with a double click (AutoAdvance.DoubleClickSkipsStep, see Findings).
- Wizard.ReachableInv: the same clause holds for the immediate-advance reducer only, for the same reason.
- Wizard.PostedBodyComplete: "both single choices are in the payload" holds for the immediate-advance reducer only; as written, a double click on step 1 can post `business_type: null` (see Findings).
- Payload.SplitJoin: the round trip is stated only for non-empty, comma-free values. Every option value of the views is such a value.

## Findings

| source | as written | input that shows it | evidently intended | confidence | as-written member | corrected member |
|---|---|---|---|---|---|---|
| src/components/IntakeFunnel.tsx:52 | every click on a single choice schedules `goNext`, which advances whatever step is showing when the timer fires | on step 1, click "Yes" and then "No" within 300 ms: the two timers move the wizard to step 3, step 2 is skipped and `businessType` stays null, so a later payload carries `business_type: null` | a burst of clicks on one choice advances exactly one step | not executed; high, the buttons stay rendered until the first timer fires | AutoAdvance.DoubleClickSkipsStep | AutoAdvance.CorrectedAdvancesOnce |
