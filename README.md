# Model card status watcher and sign-up form

This project models the two pieces of logic in the ML-platform front-end that go
beyond markup and plain HTTP calls, and proves what they guarantee.

**The model card's deployment-status watcher** (`src/components/my/ModelCard.tsx`).
A card shows a model's endpoint status. When the card mounts, or when its endpoint
name changes, it queries the status once, provided the endpoint name is non-empty.
Without an endpoint name it makes no request. Polling on an interval starts in two
cases:

- the status check reports a transient status (`Creating`, `Deleting`,
  `Updating`, `SystemUpdating`, `RollingBack`);
- a deploy/withdraw command resolves, whatever the status then is.

Polling stops at the first tick that sees a settled status or fails. That tick
also asks the parent to re-fetch the model list. The deploy/withdraw button first
stops any polling, then posts the command. A rejected command leaves the card
without polling, even while its status is transient. The copy button sets a
per-model "copied" flag, and a later timeout clears it.

- `ModelCardView` (`model_card_view.dfy`) holds the pure helpers:
  - membership in the transient set;
  - the badge colour;
  - the button text;
  - the badge's "Inactive" fallback.
- `ModelCard` (`model_card.dfy`) holds the watcher:
  - one transition function per event over a `Card` value;
  - the class `ModelCard.Component`, whose fields are the component's state:
    - `modelStatus`;
    - `pollInterval`, standing for `pollIntervalRef.current`;
    - `copyStatus`;
  - the browser state the component touches, also as fields of the class:
    - the running intervals, each with the model its callback polls;
    - the next timer handle;
    - the scheduled copy resets;
    - the log of outside calls (status queries, deploy/withdraw posts,
      `setInterval`, `clearInterval`, `fetchModels`, clipboard writes,
      `setTimeout`).

  Each method of the class ensures that its new state is the transition function
  applied to its old state. The lemmas state the watcher's guarantees.

**The sign-up form's submit handler** (`src/app/signup/page.tsx` and its
near-duplicate `src/app/signup/components/Signup.tsx`). The handler works in this
order:

1. It clears the error.
2. It runs three checks in order: the passwords match, the address has the shape
   `^[^\s@]+@[^\s@]+\.[^\s@]+$`, and the password is at least 8 characters long.
   The first failing check sets its message and returns without sending anything.
3. It sets `isLoading` and registers. It logs in only when registration answered
   201 with a truthy token.
4. It stores the token and user and opens `/dashboard` only when the login reply
   says `authenticated` is `"true"`.
5. Every other outcome sets one of the fixed messages or the server's message.
   `isLoading` is cleared at the end.

The two files differ only in the URL base: `API_BASE` for the page and `/v1/` for
the component. Both are modelled by the class `SignUp.Form`, with one constructor
each.

- `EmailPattern` (`email_pattern.dfy`) models the regular expression as a predicate.
  A lemma proves it equal to its plain-words reading: no whitespace, exactly one
  `@`, something before it, and a `.` strictly inside the part after it.
- `SignUp` (`signup.dfy`) models the handler as the sequence of actions it performs:
  `setError`, `setIsLoading`, the two POSTs, the two `localStorage` writes and the
  navigation. `Form.HandleSignUp` performs exactly that sequence. `error` and
  `isLoading` end as the last update in the sequence sets them.

`wrappers.dfy` holds the `Option` type, which models fields that may be undefined.

## Model

| member | source | states |
|---|---|---|
| `ModelCardView.IsTransient` | src/components/my/ModelCard.tsx:36-42 | true for exactly the five strings `Creating`, `Deleting`, `Updating`, `SystemUpdating`, `RollingBack`; the badge shows any of them verbatim |
| `ModelCardView.LabelColor` | src/components/my/ModelCard.tsx:147-167 | every status gets exactly one of the four colour class strings: amber iff `Creating`, green iff `InService`, red iff one of `OutOfService`/`Updating`/`Failed`/`Deleting`, neutral for every other string (including `""`, `SystemUpdating`, `RollingBack`, `Inactive`) |
| `ModelCardView.ButtonText` | src/components/my/ModelCard.tsx:165-167 | the button text is `Deploy` or `Undeploy`, and `Undeploy` iff the model is deployed |
| `ModelCardView.DisplayedStatus` | src/components/my/ModelCard.tsx:178 | the badge text is never empty, equals the status whenever the status is non-empty, and reads `Inactive` exactly when the status is `""` or `Inactive` |
| `ModelCardView.SettledStatusesAreNotTransient` | src/components/my/ModelCard.tsx:36-42 | `InService`, `OutOfService`, `Failed`, `""` and `Inactive` are outside the transient set |
| `ModelCardView.TransientBadgeColours` | src/components/my/ModelCard.tsx:147-167 | of the five transient states, `Creating` is amber, `Updating`/`Deleting` red, `SystemUpdating`/`RollingBack` neutral |
| `ModelCard.Component.constructor` | src/components/my/ModelCard.tsx:110-136 | mounting is the first render (empty status, no interval, no flags) followed by the effect's status check, and leaves no stray interval |
| `ModelCard.Component.StopPolling` | src/components/my/ModelCard.tsx:68-71 | clears the held interval, if any, logs the `clearInterval`, and leaves the handle null |
| `ModelCard.Component.StartPolling` | src/components/my/ModelCard.tsx:104-107 | starts one interval under a fresh handle whose callback polls the current model, logs the `setInterval`, and stores the handle |
| `ModelCard.Component.CheckInitialStatus` | src/components/my/ModelCard.tsx:111-134 | without an endpoint name nothing changes; otherwise one status query, the reported status stored and polling started iff it is transient, or `Inactive` on failure |
| `ModelCard.Component.PollStatus` | src/components/my/ModelCard.tsx:56-86 | one status query for the polled model; the reported status is stored; a settled status or a failure (`Inactive`) clears the interval and calls `fetchModels` once |
| `ModelCard.Component.IntervalFires` | src/components/my/ModelCard.tsx:125-128 | the held interval's callback runs `pollStatus` with the model it captured; the card keeps no stray interval |
| `ModelCard.Component.ToggleModelStatus` | src/components/my/ModelCard.tsx:88-108 | clears any interval, posts deploy or withdraw, and starts a new interval only when the command resolved; no stray interval afterwards |
| `ModelCard.Component.CopyModelId` | src/components/my/ModelCard.tsx:44-54 | logs the clipboard write; on success sets that id's flag and schedules its reset; on failure changes no flag |
| `ModelCard.Component.CopyResetFires` | src/components/my/ModelCard.tsx:48-50 | a scheduled reset sets that id's flag to false and is consumed |
| `ModelCard.Component.Rerender` | src/components/my/ModelCard.tsx:110-145 | new props re-run the effect (cleanup, then a status check) only when the endpoint name changed |
| `ModelCard.Component.Unmount` | src/components/my/ModelCard.tsx:139-144 | the cleanup leaves the handle null and no interval running |
| `ModelCard.MountedWellFormed` | src/components/my/ModelCard.tsx:110-136 | a freshly mounted card holds no stray interval |
| `ModelCard.StepWellFormed` | src/components/my/ModelCard.tsx:34 | every event preserves "the only running interval is the one in the ref, under a handle already handed out" |
| `ModelCard.RunWellFormed` | src/components/my/ModelCard.tsx:34 | over any sequence of events the card never holds more than one running interval, and that one is the one in the ref |
| `ModelCard.AtMostOneInterval` | src/components/my/ModelCard.tsx:34 | a card without stray intervals has at most one running |
| `ModelCard.MountWithoutEndpoint` | src/components/my/ModelCard.tsx:112-114 | without an endpoint name mounting makes no request, keeps the status `""`, starts no interval, and the badge reads `Inactive` in the neutral colour |
| `ModelCard.InitialCheckOutcome` | src/components/my/ModelCard.tsx:116-133 | with an endpoint name: the calls logged are exactly one status query for that endpoint, followed by one `setInterval` iff the reply reports a transient status, and nothing is re-fetched; a reported status is stored verbatim; for a transient one exactly one interval runs, under a fresh handle held in the ref and polling the card's model; otherwise (settled, or a failure giving `Inactive`) no interval runs and the handle stays null |
| `ModelCard.TickOutcome` | src/components/my/ModelCard.tsx:56-85 | a tick of the held interval makes exactly one status query, for the model that interval captured, then, iff the status is settled or the query failed, exactly a `clearInterval` of that handle and one `fetchModels`; it always stores the reported status (`Inactive` on failure); a transient one keeps the handle and the interval; a settled one or a failure leaves the handle null and no interval |
| `ModelCard.NoTickAfterSettled` | src/components/my/ModelCard.tsx:67-82 | after a tick that saw a settled status or a failure, no further tick fires |
| `ModelCard.ToggleEffects` | src/components/my/ModelCard.tsx:88-108 | the toggle's calls, in order: the old interval's `clearInterval` (if one was held), then a deploy post iff the model is not deployed (withdraw otherwise), then a `setInterval` only when the command resolved; no re-fetch |
| `ModelCard.ToggleInterval` | src/components/my/ModelCard.tsx:104-107 | a resolved command leaves exactly one interval, under a handle not in use before, polling the clicked model; a rejected command leaves none |
| `ModelCard.CancelPathsLeaveNoHandle` | src/components/my/ModelCard.tsx:139-144 | the cancel block, unmounting, and a settled or failed tick all leave the handle null and no interval running |
| `ModelCard.CopyFlagsPerKey` | src/components/my/ModelCard.tsx:44-54 | a successful copy sets only its own id to true, a failed copy changes no flag, a reset sets only its own id to false; every other id keeps its presence and value |
| `ModelCard.FlagUntouchedByOtherIds` | src/components/my/ModelCard.tsx:47-49 | over any run, an id's flag changes only through a copy or a reset of that same id |
| `ModelCard.RefreshesMatchSettledTicks` | src/components/my/ModelCard.tsx:73 | over any run, `fetchModels` is called exactly once per tick that sees a settled status or a failure, and by no other event |
| `ModelCard.StepRefreshes` | src/components/my/ModelCard.tsx:84 | one event adds one `fetchModels` call if it is a tick that fires and sees a settled status or a failure, none otherwise |
| `ModelCard.RerenderRefreshes` | src/components/my/ModelCard.tsx:110-145 | a re-render, with or without a re-run of the effect, never calls `fetchModels` |
| `ModelCard.EarlierResetClearsRecopy` | src/components/my/ModelCard.tsx:48-50 | copying the same id twice and letting the first reset fire leaves the flag false while the second reset is still pending |
| `EmailPattern.EmailRegexTest` | src/app/signup/page.tsx:57-58 | the regex test holds when some placement of the `@` and the `\.` makes the three `[^\s@]+` runs non-empty; a match is at least five characters long and neither starts nor ends with `@` |
| `EmailPattern.EmailRegexCharacterization` | src/app/signup/page.tsx:57 | the regex accepts a string iff it has no whitespace, exactly one `@` with something before it, and a `.` that is neither the first nor the last character after the `@` |
| `EmailPattern.AcceptsOrdinaryAddress` | src/app/signup/components/Signup.tsx:35 | `user@example.com` passes the check |
| `EmailPattern.RejectsDotlessHost` | src/app/signup/components/Signup.tsx:36 | `me@localhost` fails the check |
| `EmailPattern.RejectsSecondAtSign` | src/app/signup/page.tsx:57-59 | `a@b@c.de` fails the check |
| `EmailPattern.RejectsSpace` | src/app/signup/page.tsx:57-59 | `a b@c.de` fails the check |
| `SignUp.FirstInvalid` | src/app/signup/page.tsx:50-67 | the checks run in order: a mismatch is reported iff the passwords differ; a bad address iff they match and the regex fails; a short password iff both pass and the length is below 8; no problem iff all three pass |
| `SignUp.EightCharactersSuffice` | src/app/signup/page.tsx:64 | a password of exactly 8 characters passes the length check |
| `SignUp.Form.Page` | src/app/signup/page.tsx:9-22 | the page form starts empty, without error or loading, posting under the given API base |
| `SignUp.Form.Component` | src/app/signup/components/Signup.tsx:8-17 | the component form starts empty, without error or loading, posting under `/v1/` |
| `SignUp.Form.Report` | src/app/signup/page.tsx:48 | `setError` sets the error and is recorded as an action |
| `SignUp.Form.HandleSignUp` | src/app/signup/page.tsx:46-113 | the submit performs exactly the handler's action sequence, and `error` and `isLoading` end as that sequence's last updates set them |
| `SignUp.Form.SendRequests` | src/app/signup/components/Signup.tsx:46-80 | the request part: loading on, the signup post, the register/login outcome's actions, loading off; the error and the loading flag end as those actions set them, so loading always ends off |
| `SignUp.Form.FinishRegistration` | src/app/signup/page.tsx:83-105 | after the register reply: the login post followed by the login outcome when the reply is 201 with a truthy token, otherwise the caught or returned error message; `error` ends as those actions set it |
| `SignUp.Form.FinishLogin` | src/app/signup/page.tsx:90-101 | after the login reply: the token write, the user write and `/dashboard`, in that order, when authenticated, otherwise the failure message; `error` ends as those actions set it |
| `SignUp.TraceByOutcome` | src/app/signup/page.tsx:46-113 | the whole action sequence of a submit for each of its six outcomes (failed check, register rejected, register refused, login rejected, login refused, success) |
| `SignUp.FinalState` | src/app/signup/page.tsx:48-111 | the error a submit ends with: the check's message; or the caught server message / fallback; or the register error / `Registration failed`; or the login-failure message; or `""` on success. `isLoading` is unchanged after a failed check and false after requests |
| `SignUp.LastSetErrorWins` | src/app/signup/page.tsx:18-19 | the error after a sequence of actions is the message of its last `setError` |
| `SignUp.NoLoadingUpdateKeeps` | src/app/signup/page.tsx:18-19 | a sequence without `setIsLoading` leaves the loading flag as it was |
| `SignUp.NoErrorUpdateKeeps` | src/app/signup/page.tsx:18-19 | a sequence without `setError` leaves the error as it was |
| `SignUp.ErrorAfterAppend` | src/app/signup/page.tsx:18-19 | the error after two stretches of actions is the error the second leaves when started from what the first left |
| `SignUp.LoadingAfterAppend` | src/app/signup/page.tsx:18-19 | the same composition for the loading flag |
| `SignUp.SubmitClearsErrorFirst` | src/app/signup/components/Signup.tsx:28 | the first action of every submit clears the error |
| `SignUp.ValidationFailureSendsNothing` | src/app/signup/components/Signup.tsx:30-44 | after a failed check there is no request, no loading update, no storage write and no navigation |
| `SignUp.LoadingBracketsRequests` | src/app/signup/components/Signup.tsx:47-80 | on the request path loading is set right before the signup post and cleared as the very last action, with no loading update between; every request lies between the two |
| `SignUp.LoginOnlyAfterRegistration` | src/app/signup/components/Signup.tsx:56-60 | the login post is sent iff the checks passed and registration answered 201 with a truthy token |
| `SignUp.RedirectOnlyWhenAuthenticated` | src/app/signup/components/Signup.tsx:62-71 | token and user are stored and `/dashboard` opened iff the login reply says authenticated; otherwise nothing is stored; the final error is `""` exactly in that case |

## Behaviour of the code worth knowing

- The deploy/withdraw toggle starts a new interval only after the command's
  promise resolves. A rejected command skips `setInterval`, because the `await`
  throws first. The card then keeps whatever status it showed, transient or
  not, and does not poll.
- Nothing in the code prevents two polls from overlapping when a reply takes
  longer than the interval. The model runs each tick to completion, so it says
  nothing about overlapping polls.
- A failed initial status check sets `Inactive` but does not call `fetchModels`.
  A failed poll tick does both.
- A reply without `endpoint_status` does not count as a failure. The status is
  stored as `undefined`, which renders, colours and stops polling exactly like
  the empty status. The model therefore treats it as `Reported("")`.

## Left out

- Network, clipboard, `localStorage` and navigation. They are foreign effects:
  their replies are event parameters and their calls are recorded actions.
- The 5000 ms interval and copy delay. Wall-clock time is not modelled, so ticks
  and timeouts are discrete events.
- Interleavings of in-flight requests. Each event runs to completion. So the model
  does not show what the source does when a status or command reply arrives after
  another event has already started an interval (the handle is then overwritten
  without `clearInterval`). It does not show a poll reply that arrives after its
  interval was cleared either.
- Events after unmounting are not excluded. React drops state updates on an
  unmounted component, and the model does not represent that.
- `console.log` and `console.error` calls. They are logging only.
- Rendering of the cards and forms beyond the badge text and colour and the
  button text: the copy button text, the date formatting and the layout.
- Response bodies whose `token`, `error`, `authenticated` or `user` field is not
  a string. The serialised user object is an opaque optional string.
- A null response body, which makes the source throw a `TypeError` caught with the
  fallback message.
- A `localStorage` write that throws.
- `SignUp.Form.HandleSignUp`: a resolved reply may carry any status code. The
  model does not represent axios rejecting non-2xx statuses before the handler
  sees them.
- `SignUp.FirstInvalid`: measures the password in Unicode code points. JavaScript
  measures it in UTF-16 code units, and the two differ for characters outside the
  Basic Multilingual Plane.
- `EmailPattern.EmailRegexCharacterization`: `\s` is the JavaScript whitespace set
  over code points. Since the regex has no `u` flag it reads UTF-16 units, but no
  surrogate is whitespace or `@`, so the verdict is the same.
- The page's `API_BASE` comes from the environment. It is a constructor parameter.
- Timer handles are abstract naturals handed out in increasing order.
