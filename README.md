# Poll creation wizard, vote selector and max-votes toggle

A Dafny model of the client-side logic of three components of a group-scheduling
web application:

- **Poll-creation wizard** (`src/components/create-poll.tsx`), module `CreatePoll`.
  The wizard has three fixed steps: event details, options and user details.
  The form payload of each step is stored in a draft under the step's name.
  Submitting a step before the last one stores its data and moves on.
  A field change replaces the current step's payload without moving.
  Back moves one step down.
  Submitting the last step builds the `polls.create` request from the draft.
  Four required values are checked first, and a missing one throws.
  The draft is held twice, in memory and in session storage, and `setFormData` writes the same value to both.
  When creation succeeds, only the stored copy is reset and the page starts redirecting.
  The pure object spreads that build each new draft are functions.
  The page itself is the class `CreatePollPage`, whose methods update the two copies and the flags.
- **Vote selector** (`src/components/poll/vote-selector.tsx`), module `VoteSelector`.
  `getNext` does index arithmetic over `["yes", "ifNeedBe", "no"]`.
  It skips "yes" while the option's cap is reached.
  The click rule also covers an unset value.
- **Max-votes toggle** (`src/components/forms/poll-details-form.tsx`), module `PollDetailsForm`.
  The checkbox flag starts on exactly when a default cap of at least one is given.
  Every toggle flips the flag and clears the number field.
  The number input is disabled while the flag is off.

`wrappers.dfy` holds `Option` (for `undefined`) and `Result` (for a thrown error).

In these places the model follows the code as written:

- A change or a submission replaces the step's payload wholesale (`[currentStepName]: data`).
  It does not merge field by field.
- After a successful creation only the persisted draft is reset to `{currentStep: 0}`.
  The in-memory draft keeps its contents and stays on the last step.
- The Back button spreads the *persisted* draft, not the in-memory one.
  The class invariant `Valid()` says the two copies agree until a redirect begins.
  Back is disabled while busy, so `Back` provably keeps the in-memory payloads.
- The last step's `handleSubmit` ignores its argument.
  The request is read from the in-memory draft, which `handleChange` keeps current.
- `required` tests JavaScript falsiness.
  An empty string counts as missing.
  An empty options array does not count as missing, because arrays are always truthy.

## Model

| member | source | states |
|---|---|---|
| `VoteSelector.IndexOf` | src/components/poll/vote-selector.tsx:20-24 | `indexOf` finds every vote type in `orderedVoteTypes`, at a valid index holding that vote |
| `VoteSelector.GetNext` | src/components/poll/vote-selector.tsx:22-34 | the next vote always differs from the current one, and is never "yes" while the cap is reached |
| `VoteSelector.GetNextIsSuccessor` | src/components/poll/vote-selector.tsx:22-34 | the index arithmetic equals the cycle table yes → ifNeedBe → no → yes, in which "no" goes to ifNeedBe under the cap |
| `VoteSelector.UncappedCycleOfThree` | src/components/poll/vote-selector.tsx:20-25 | without the cap, three applications return to the start and two never do |
| `VoteSelector.CappedAlternation` | src/components/poll/vote-selector.tsx:27-31 | with the cap, ifNeedBe and no alternate (two applications return to the start), and both "no" and "yes" go to ifNeedBe |
| `VoteSelector.NextOnClick` | src/components/poll/vote-selector.tsx:67-69 | a click on an unset button gives "yes", or ifNeedBe when capped; a click on a set button changes the value; a capped click never gives "yes" |
| `VoteSelector.Clicks` | src/components/poll/vote-selector.tsx:67-69 | zero clicks leave the value as it was; after any click the button holds a vote, and never "yes" while capped |
| `VoteSelector.UncappedClicksFollowOrder` | src/components/poll/vote-selector.tsx:20-34 | the n-th click on an unset, uncapped button shows `orderedVoteTypes[(n-1) % 3]` |
| `VoteSelector.CappedClicksAlternate` | src/components/poll/vote-selector.tsx:22-34 | clicks on an unset, capped button show ifNeedBe and no alternately, starting with ifNeedBe |
| `PollDetailsForm.Toggled` | src/components/forms/poll-details-form.tsx:39-42 | a toggle negates the flag and clears the number, whichever way it goes |
| `PollDetailsForm.DoubleToggle` | src/components/forms/poll-details-form.tsx:39-42 | two toggles restore the flag, but the number stays cleared |
| `PollDetailsForm.AtLeastOne` | src/components/forms/poll-details-form.tsx:37 | the initial-flag test holds exactly for a defined numeric `maxVotes` of at least 1; undefined and NaN fail it |
| `PollDetailsForm.MaxVotesField.InputDisabled` | src/components/forms/poll-details-form.tsx:89-97 | the number input is disabled exactly when `maxVotesEnabled` is false, and under the field's invariant `Valid()` (established by the constructor and kept by every toggle) a disabled input always holds an undefined value |
| `PollDetailsForm.MaxVotesField.constructor` | src/components/forms/poll-details-form.tsx:37 | the flag starts on exactly when the default `maxVotes` is defined, a number and at least 1; otherwise the input starts disabled and the field reads as undefined, and when enabled it holds the default |
| `PollDetailsForm.MaxVotesField.HandleMaxVotesChecked` | src/components/forms/poll-details-form.tsx:39-42 | the new state is `Toggled` of the old one; the input's disabled state flips with the flag; the field is cleared, so a disabled field is always undefined |
| `CreatePoll.StepOrder` | src/components/create-poll.tsx:25-27 | the steps are eventDetails, options and userDetails, in that order and all distinct, so `steps.length - 1` is 2 |
| `CreatePoll.InitialNewEventDataIsEmpty` | src/components/create-poll.tsx:37 | the reset draft is at step 0 and holds no payload under any step name |
| `CreatePoll.InitialDraft` | src/components/create-poll.tsx:61-80 | the default stored draft is at step 0, with the props as event details and the view as options; user details are present exactly for a signed-in non-guest user and then hold that user's name and email |
| `CreatePoll.Spread` | src/components/create-poll.tsx:120-124 | the object spread sets the step, stores the data under the given name and leaves every other payload as it was |
| `CreatePoll.Advanced` | src/components/create-poll.tsx:119-124 | below the last step, the index becomes index+1, still in range, the data is stored under the current step's name, and every other payload is unchanged |
| `CreatePoll.Changed` | src/components/create-poll.tsx:145-153 | a change keeps the step index, replaces the current step's payload with the data, and leaves the other payloads unchanged |
| `CreatePoll.Retreated` | src/components/create-poll.tsx:207-211 | Back's draft is at the index minus one, still in range, with exactly the payloads of the draft it spreads |
| `CreatePoll.BackUndoesAdvanceStep` | src/components/create-poll.tsx:204-211 | Back after an advance restores the step index, and the result is the old draft with the current payload replaced by the submitted data |
| `CreatePoll.AfterSubmit` | src/components/create-poll.tsx:116-143 | a submission keeps the step index in range and leaves the in-memory draft alone on the last step |
| `CreatePoll.AfterSubmits` | src/components/create-poll.tsx:116-143 | any run of submissions keeps the step index in 0..2 |
| `CreatePoll.StepAfterSubmits` | src/components/create-poll.tsx:119-124 | n submissions from step i leave the wizard at min(i + n, 2) |
| `CreatePoll.PayloadsAfterSubmits` | src/components/create-poll.tsx:119-141 | after a run of submissions each step passed before the last holds the data submitted on it; every other step, the last included, keeps its old payload |
| `CreatePoll.RequiredText` | src/components/create-poll.tsx:29-35 | a string passes `required` exactly when it is defined and non-empty, and is then returned unchanged |
| `CreatePoll.RequiredList` | src/components/create-poll.tsx:29-35 | an array passes `required` exactly when it is defined, empty or not, and is then returned unchanged |
| `CreatePoll.BuildRequest` | src/components/create-poll.tsx:125-141 | the request exists exactly when title, name and contact are non-empty and options are defined; it carries them together with location, description, maxVotes and time zone from the draft, type "date", and each option encoded in order |
| `CreatePoll.CreatePollPage.constructor` | src/components/create-poll.tsx:61-82 | on mount both copies equal the stored draft, or the default one when nothing is stored; nothing is busy |
| `CreatePoll.CreatePollPage.IsBusy` | src/components/create-poll.tsx:114 | the page is busy exactly while redirecting or while the create mutation is loading; whenever it is not busy, the persisted draft is the in-memory draft, which is what lets Back spread the persisted copy without losing anything |
| `CreatePoll.CreatePollPage.BackOffered` | src/components/create-poll.tsx:204 | the Back button is rendered exactly above step 0; for a valid page it is offered exactly when one step back is still a valid step index |
| `CreatePoll.CreatePollPage.SetFormData` | src/components/create-poll.tsx:84-90 | the identical draft is written to the in-memory and persisted copies, and the flags are untouched |
| `CreatePoll.CreatePollPage.HandleSubmit` | src/components/create-poll.tsx:116-143 | below the last step, both copies become `Advanced`. On the last step neither copy changes: a missing required value returns the error, otherwise the request is returned and loading starts. The step index stays in range |
| `CreatePoll.CreatePollPage.HandleChange` | src/components/create-poll.tsx:145-153 | both copies become `Changed` of the in-memory draft, and the flags are untouched |
| `CreatePoll.CreatePollPage.Back` | src/components/create-poll.tsx:204-216 | callable only above step 0 and while not busy (`isRedirecting` or loading). It lowers the index by exactly one, keeps every payload of the in-memory draft, and syncs both copies |
| `CreatePoll.CreatePollPage.OnCreateSettled` | src/components/create-poll.tsx:100-114 | settling clears loading. Success sets `isRedirecting`, resets only the persisted copy to `{currentStep: 0}`, keeps the in-memory one and reports the new `urlId`. Failure changes nothing else |

## Left out

- Rendering, CSS classes, animation and icons are left out: they are presentation.
- The `polls.create` network call is an input `CreateOutcome` (created with a `urlId`, or failed).
  The router redirect and the analytics event are I/O and are not modelled.
- `encodeDateOption` is a function parameter `encode`, and a date option is an opaque descriptor.
  Their source is not part of this model.
- `requiredString` validation in the details form is not part of this model.
- Session storage is a plain field.
  Storage failures and reloads are not modelled, except that the page can be mounted with a stored draft.
- `CreatePoll.CreatePollPage.constructor`: requires a stored draft's step index to be in range.
  Only this page writes the slot, and it only ever writes in-range indices.
- React's asynchronous state updates and stale closures are not modelled.
  Each event sees the state the previous event left.
- `CreatePoll.CreatePollPage.HandleSubmit`: does not stop a second submission while loading.
  The source leaves that to the submit button's `loading` prop, and the button component is not part of this model.
  Overlapping mutations share one loading flag in the model.
- `CreatePoll.CreatePollPage.OnCreateSettled`: requires a mutation in flight, since the mutation's callbacks fire only then.
  When the mutation fails, the error that `mutateAsync` rethrows is not modelled beyond leaving the state unchanged.
- The `watch` subscription that calls `handleChange` on every field edit is framework plumbing.
  `HandleChange` is the call it makes.
- Each step form submits its own payload shape.
  A payload of the wrong shape under a step name reads as all-undefined, as JavaScript property access would.
- `maxVotes` is an integer or NaN.
  Fractional numbers are not modelled.
  The input's `disabled` rule is the predicate `InputDisabled`.
- Clearing `maxVotes` when the feature is turned on, not only when it is turned off, is kept as the code does it.
- The page layout, footer, language selector, delete-participant modal, API response types and i18n configuration are left out.
  They are layout, navigation, locale routing, a modal wrapper or type declarations, with no behaviour to state here.
