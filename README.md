# AgroDigital presale front-end: a verified model of its decision rules

The front-end lists token offerings, shows fundraising totals, connects a browser
wallet and submits investments. Most of the code is markup. This project models the
parts that decide something:

- **Investment dialog** (`InvestmentFlow`, from `src/components/InvestmentModal.jsx`).
  It covers the ordered validation (wallet, then a valid amount, then the $10 minimum,
  then what is left of the goal). It covers the single `createInvestment` call and the
  four state fields it drives: `amount`, `isProcessing`, `error` and `success`. It also
  covers the completion timer and `calculateTokens`.
- **Wallet session** (`Web3`, from `src/hooks/useWeb3.js`). It holds `account`,
  `isConnected` and `isConnecting`, which `checkConnection`, `connectWallet` and
  `disconnectWallet` change. `formatAddress` is modelled with JavaScript's `slice`
  semantics.
- **Page state** (`App`, from `src/App.jsx`). It holds the loaded tokens and
  statistics, the selected token and the dialog flag. It covers the three handlers,
  the dialog's render condition and the `||` fallbacks for the totals.
- **Token card** (`TokenCards`, from `src/components/TokenCards.jsx`). It covers the
  progress default, the completion rule, the bar clamp, the two colour lookups and the
  buy button.

`src/App.jsx` imports `./components/TokenCard`. The component it means is in
`src/components/TokenCards.jsx`, and the two are treated as the same component.

Each stateful component is modelled in two layers:

- A datatype of its state fields (`ModalState`, `Session`, `AppView`) with pure step
  functions. The lemmas state their properties over these functions.
- A class with the same fields. Each method updates the fields in place, and its
  `ensures` ties the new state to the step function applied to the old state.

Inputs that come from outside become parameters:

- Whether a wallet provider is injected, and what it answers: `Option<Reply>`.
- The outcome of the investment request: `ApiOutcome`.
- The results of the two fetches, given to `LoadData`.

Amounts are exact reals. An empty amount input is `None`.

`handleInvest` is an async function that stops at one `await`. It is modelled as two
steps:

- `Begin` / `HandleInvest` runs the checks. It either refuses, asks for the wallet, or
  sets `isProcessing`, clears `error` and returns the request to send.
- `Settle` / `SettleInvestment` runs the try/catch/finally once the request's outcome
  is known.

The confirm button is disabled while `isProcessing` and is absent from the success
screen. So `Begin` requires `!isProcessing && !success`, and the event model treats a
click on a disabled button as nothing.

Facts about the code that the model keeps:

- `handleInvest` has no guard of its own against a second submission. Only the
  disabled confirm button (`src/components/InvestmentModal.jsx:149`) prevents one.
- The dialog's state is four independent fields.
- For an address shorter than ten characters, `formatAddress` repeats characters,
  because the two `slice` calls overlap. For example, `"0xAB"` gives `"0xAB...0xAB"`.
- The investment outcome has three cases: a 2xx reply, a non-2xx reply, and any other
  thrown error. A non-2xx reply without an `error` field already carries
  `'Failed to create investment'` from `src/hooks/useApi.js:62`. So the dialog's own
  fallback, `'Erro ao processar investimento'`, shows only for a thrown error whose
  message is empty (`FailureText`).
- A token whose `raised` or `goal` is missing makes `goal - raised` NaN. The
  comparison with NaN is false, so every amount from $10 up is submitted
  (`MissingBoundAdmitsAnyAmount`).

## Model

| member | source | states |
|---|---|---|
| `Offering.Available` | src/components/InvestmentModal.jsx:34 | `goal - raised` is defined exactly when both fields are present, and then adding it to `raised` gives `goal`. |
| `InvestmentFlow.Validate` | src/components/InvestmentModal.jsx:19-38 | Each verdict is characterised on its own. It asks for the wallet exactly when not connected. It refuses as invalid exactly when the amount is empty or not positive. It refuses as below the minimum exactly when the amount is in (0, 10). It refuses as exceeding exactly when the amount is at least 10 and above a defined `goal - raised`, and then reports `goal - raised`. It accepts exactly when the amount is at least 10 and not above `goal - raised` (any such amount when that is NaN), and accepts that same amount. |
| `InvestmentFlow.MissingBoundAdmitsAnyAmount` | src/components/InvestmentModal.jsx:34-35 | With `raised` or `goal` missing, every amount of at least 10 is accepted. |
| `InvestmentFlow.ValidationBoundaries` | src/components/InvestmentModal.jsx:24-38 | Exactly 10 and exactly `goal - raised` pass. A negative amount gets the invalid-amount refusal, never the minimum message. Without a wallet, no amount is checked. |
| `InvestmentFlow.ValidationExample` | src/components/InvestmentModal.jsx:29-38 | With goal 1000 and raised 950: 60 exceeds with 50 available; 50 and 49.99 are accepted; 9.99 is below the minimum; an empty amount is invalid. |
| `InvestmentFlow.EstimatedTokens` | src/components/InvestmentModal.jsx:13-16 | 0 for an empty amount or a missing or zero price. Otherwise the estimate times the price is the amount. |
| `InvestmentFlow.EstimateExample` | src/components/InvestmentModal.jsx:13-16 | $100 at price 2 gives 50 tokens. |
| `InvestmentFlow.RefusalText` | src/components/InvestmentModal.jsx:24-37 | Every refusal shows a non-empty error. Only the exceeds refusal gives the max-available message, and that message carries the refusal's available amount, `goal - raised`. |
| `InvestmentFlow.RefusalTextsDiffer` | src/components/InvestmentModal.jsx:24-37 | Distinct refusals show distinct messages: an invalid amount (including a negative one) never shows the minimum message, and max-available messages for different amounts differ. |
| `InvestmentFlow.ThrownMessage` | src/hooks/useApi.js:60-69 | For a non-2xx reply, the thrown message is the body's non-empty `error`, else `'Failed to create investment'`, so it is never empty. Any other error is rethrown with its own message. |
| `InvestmentFlow.FailureText` | src/components/InvestmentModal.jsx:49-50 | The failure message is never empty. It is the server's `error` when one was sent. For a non-2xx reply without one it is `'Failed to create investment'` (`src/hooks/useApi.js:62`), so the dialog's own fallback is not reached there. A thrown error shows its message, or `'Erro ao processar investimento'` when that message is empty. |
| `InvestmentFlow.Shown` | src/components/InvestmentModal.jsx:139 | The error box is hidden exactly for the cleared field or an empty message. The max-available message is always shown. |
| `InvestmentFlow.Edit` | src/components/InvestmentModal.jsx:110-111 | Typing changes `amount` and nothing else. |
| `InvestmentFlow.Begin` | src/components/InvestmentModal.jsx:18-44 | Without a wallet, it requests a connection and changes no state. It sends a request exactly when validation accepts. That request is `(token.id, account, amount)`, with `isProcessing` set and `error` cleared. On a refusal, nothing is sent, `isProcessing` stays false and `error` holds the refusal's message. `amount` and `success` are never changed. |
| `InvestmentFlow.Settle` | src/components/InvestmentModal.jsx:43-53 | After either outcome `isProcessing` is false. On success, `success` is set and the completion timer is armed. On failure, `success` is unchanged and `error` is the failure message. |
| `InvestmentFlow.FireCompletion` | src/components/InvestmentModal.jsx:46-48 | The armed timer fires `onComplete` once and is disarmed. Nothing else changes. |
| `InvestmentFlow.Enabled` | src/components/InvestmentModal.jsx:56-149 | The amount input is there exactly when the form (not the success screen) is rendered. The confirm button is clickable exactly when the form is rendered and no request is in flight. In a reachable state, a reply arrives while the form is shown, and the timer fires while the success screen is shown. |
| `InvestmentFlow.MountedInv` | src/components/InvestmentModal.jsx:6-9 | The freshly mounted dialog satisfies the dialog invariant. |
| `InvestmentFlow.StepKeepsInv` | src/components/InvestmentModal.jsx:18-53 | Every enabled event keeps the invariant. While processing, there is no error and no success. On success, nothing is processing and there is no error. An armed timer implies success. A shown message is never empty. |
| `InvestmentFlow.RunKeepsPromises` | src/components/InvestmentModal.jsx:18-53 | Over any run of events: every request sent is answered, except one in flight exactly when `isProcessing` holds. `onComplete` fires once per switch to `success`, and `success` never reverts. No more requests are sent than confirm clicks. Every request sent is for this token, at least 10, and not above `goal - raised` when that is defined. |
| `InvestmentFlow.RunFromMount` | src/components/InvestmentModal.jsx:6-53 | From a fresh dialog, at most one request is ever in flight and `onComplete` fires at most once. |
| `InvestmentFlow.SuccessScenario` | src/components/InvestmentModal.jsx:40-48 | Typing 100, confirming with a connected wallet, receiving a 2xx reply and the timer firing sends exactly one request `(1, wallet, 100)` and completes once. |
| `InvestmentFlow.InvestmentModal.constructor` | src/components/InvestmentModal.jsx:6-9 | The dialog mounts with an empty amount, not processing, no error and no success. |
| `InvestmentFlow.InvestmentModal.SetAmount` | src/components/InvestmentModal.jsx:111 | In place: the state afterwards is `Edit` of the state before. |
| `InvestmentFlow.InvestmentModal.HandleInvest` | src/components/InvestmentModal.jsx:18-44 | In place, with the source's early returns: the new state and the returned effect are `Begin` of the old state. |
| `InvestmentFlow.InvestmentModal.SettleInvestment` | src/components/InvestmentModal.jsx:43-53 | In place: the new state is `Settle` of the old state and the outcome. |
| `InvestmentFlow.InvestmentModal.CompletionTimerFires` | src/components/InvestmentModal.jsx:46-48 | In place: the new state and the effect are `FireCompletion` of the old state. |
| `Web3.Offered` | src/hooks/useWeb3.js:16-17 | A reply offers an account exactly when it is a non-empty list, and the account offered is the list's first entry. |
| `Web3.Check` | src/hooks/useWeb3.js:12-24 | With a provider and a non-empty list, it adopts the first account and sets connected. No provider, an empty list or an error leaves the session unchanged. It never touches `isConnecting` and keeps account and flag paired. |
| `Web3.Connect` | src/hooks/useWeb3.js:26-54 | Without a provider, it returns false with the not-installed notice and changes nothing, so `isConnecting` is never set. Otherwise `isConnecting` ends false. It returns true exactly for a non-empty reply, and then adopts the first account and sets connected. Otherwise account and flag are unchanged. The not-installed notice is given exactly when there is no provider. An account list, empty or not, raises no notice. The rejected notice is given exactly for code 4001. The error notice is given exactly for any other code, and carries the provider's `error.message`. |
| `Web3.Disconnect` | src/hooks/useWeb3.js:56-59 | Clears the account and the flag together and leaves `isConnecting` alone. |
| `Web3.DisconnectIdempotent` | src/hooks/useWeb3.js:56-59 | Disconnecting twice is the same as disconnecting once. |
| `Web3.ConnectAgreesWithCheck` | src/hooks/useWeb3.js:12-54 | Given the same answer, the interactive request and the silent probe adopt the same account. The request also leaves `isConnecting` false. |
| `Web3.ReplayKeepsPairing` | src/hooks/useWeb3.js:4-59 | Starting paired and not connecting, any sequence of probes, requests and disconnects keeps `account` and `isConnected` paired and never leaves the session connecting. |
| `Web3.JsSlice` | src/hooks/useWeb3.js:63 | `slice(begin, end)` is the plain subsequence for in-range indices. A negative `begin` with an end past the string counts from the end, clamped at 0. An empty normalised range gives `''`. |
| `Web3.FormatAddress` | src/hooks/useWeb3.js:61-64 | A missing or empty address gives `''`. |
| `Web3.FormatAddressShape` | src/hooks/useWeb3.js:61-64 | A non-empty address gives its first min(6, n) characters, then `...`, then its characters from max(n - 4, 0). The result has length 13 exactly when the address has at least 6 characters. |
| `Web3.FormatLongAddress` | src/hooks/useWeb3.js:63 | For 10 or more characters, the result has length 13. Its characters 0-5 are the address's first six, 6-8 are `...`, and 9-12 are the address's last four. |
| `Web3.FormatAddressExample` | src/hooks/useWeb3.js:61-64 | `0xABCDEF1234567890` gives `0xABCD...7890`. An empty or missing address gives `''`. |
| `Web3.WalletSession.constructor` | src/hooks/useWeb3.js:4-6 | The session starts with `account = null`, not connected and not connecting. |
| `Web3.WalletSession.CheckConnection` | src/hooks/useWeb3.js:12-24 | In place: the new session is `Check` of the old session. |
| `Web3.WalletSession.ConnectWallet` | src/hooks/useWeb3.js:26-54 | In place, setting `isConnecting` and resetting it as the `finally` does: the new session, the result and the notice are `Connect` of the old session. |
| `Web3.WalletSession.DisconnectWallet` | src/hooks/useWeb3.js:56-59 | In place: the new session is `Disconnect` of the old session. |
| `App.OrElse` | src/App.jsx:45-46 | The JavaScript or-fallback on a number: the value when present and non-zero, otherwise the fallback. |
| `App.TotalRaised` | src/App.jsx:45 | `total_raised` when present and non-zero, otherwise 872500, so a zero also falls back. Never 0. |
| `App.TotalGoal` | src/App.jsx:46 | `total_goal` when present and non-zero, otherwise 2000000. Never 0, so the percentage that divides by it is defined. |
| `App.TotalsBeforeLoad` | src/App.jsx:45-46 | With the initial `{}` statistics, the totals are 872500 and 2000000. |
| `App.ModalToken` | src/App.jsx:292 | The dialog is rendered exactly when `showInvestModal` holds and a token is selected, and it is for that token. |
| `App.Loaded` | src/App.jsx:25-32 | `loadData` replaces the tokens and the statistics with the fetch results and changes nothing else. |
| `App.Open` | src/App.jsx:34-37 | `handleInvest(token)` renders the dialog for that token and changes nothing but the selection and the flag. |
| `App.Complete` | src/App.jsx:39-43 | `handleInvestmentComplete` clears the open flag and the selection, so the dialog is not rendered, and requests one more load. Tokens, statistics and language are kept. |
| `App.Close` | src/App.jsx:297 | `onClose` clears the open flag, so the dialog is not rendered, and keeps the selection. Nothing else changes. |
| `App.ReplayKeepsSelection` | src/App.jsx:34-43 | Over any sequence of loads, opens, completions and closes: the open flag implies a selection, so the flag alone decides rendering. A rendered dialog is for the most recently opened token, so a selection kept by `onClose` never reappears. |
| `App.AppState.constructor` | src/App.jsx:12-16 | The page starts with no tokens, `{}` statistics, no selection, the dialog closed, language `'pt'` and the mount's one load requested. |
| `App.AppState.LoadData` | src/App.jsx:25-32 | In place: the new state is `Loaded` of the old state. |
| `App.AppState.HandleInvest` | src/App.jsx:34-37 | In place: the new state is `Open` of the old state. |
| `App.AppState.HandleInvestmentComplete` | src/App.jsx:39-43 | In place: the new state is `Complete` of the old state. |
| `App.AppState.CloseModal` | src/App.jsx:297 | In place: the new state is `Close` of the old state. |
| `TokenCards.Progress` | src/components/TokenCards.jsx:5 | The stored progress with 0 as the fallback, or 0 when absent. A stored 0 falls back to the same 0. |
| `TokenCards.IsCompleted` | src/components/TokenCards.jsx:6 | An offering is completed exactly when it has a stored progress of at least 100. |
| `TokenCards.BarWidth` | src/components/TokenCards.jsx:73 | The width never exceeds 100. It is 100 exactly when the token is completed, and it is the progress otherwise. It is not negative for a non-negative progress. |
| `TokenCards.IconGradient` | src/components/TokenCards.jsx:8-17 | It differs from the primary default exactly for AGRO1 to AGRO5, and always ends in shade 600. |
| `TokenCards.ProgressGradient` | src/components/TokenCards.jsx:19-28 | It differs from the primary default exactly for AGRO1 to AGRO5. |
| `TokenCards.GradientsShareHue` | src/components/TokenCards.jsx:8-28 | For every symbol other than an inherited object key (see "Left out"), the bar gradient is the icon gradient with its closing shade 600 replaced by 400. |
| `TokenCards.Render` | src/components/TokenCards.jsx:30-102 | The "Completo" badge shows exactly when progress is at least 100. The buy button is disabled exactly then, which is exactly when the bar is full. The label is "Meta Atingida" when disabled and "Comprar <symbol>" otherwise. |
| `TokenCards.Click` | src/components/TokenCards.jsx:89-91 | The buy button hands the card's own token to `onInvest`, and nothing when the token is completed. |

## Left out

- HTTP plumbing in `src/hooks/useApi.js`, which is I/O: `fetch`, JSON bodies, the
  environment-dependent base URL, the shared `loading`/`error` flags, and the `[]`/`{}`
  substitutes for failed reads. The request's outcome is the input `ApiOutcome`. The
  fetch results are the inputs of `LoadData`. Only the message choice at
  `src/hooks/useApi.js:60-69` is modelled, in `ThrownMessage`.
- The injected wallet provider, `alert` and `console.error`. The provider's presence
  and answer are inputs. The alert `connectWallet` would raise is returned as a
  `Notice`. For a provider error other than 4001 the notice keeps the provider's
  `error.message`; only the alerts' fixed wording is dropped.
- Timing and concurrency. The 2-second `setTimeout` is the `completionPending` flag.
  `Promise.all` and React's batched, asynchronous updates are not modelled.
  `loadData` is a counted request (`loadRequests`) plus a later `LoadData` with the
  results. An in-flight `connectWallet` is not modelled: it runs to completion inside
  one call, so `isConnecting` is seen only at its start and end.
- Web3.WalletSession.ConnectWallet: interleaving two overlapping connect requests is
  not modelled, because the model runs each request to completion.
- Floating point and number formatting: `parseFloat`, `toFixed` and `toLocaleString`.
  Amounts are exact reals, so `EstimatedTokens` is the exact quotient without
  two-decimal rounding. The max-available message is kept as `MaxAvailable(amount)`
  rather than formatted text. The page's `progressPercentage` string is left out.
  An unparsable amount is not modelled, because an `<input type="number">` reports it
  as `''`, which is the `None` amount.
- TokenCards.IconGradient: symbols that name inherited `Object.prototype` members
  (`"constructor"`, `"toString"`, `"__proto__"`) are not modelled. The source's
  object-literal lookup returns that inherited member, which is truthy, instead of
  the default. The model treats the lookup as a map and returns the default.
- TokenCards.ProgressGradient: the same inherited-key lookup at
  `src/components/TokenCards.jsx:20-27` is not modelled, for the same reason.
- TokenCards.GradientsShareHue: holds of the model for every symbol. In the source it
  fails on inherited keys, where both lookups return the same inherited member.
- A `raised` or `goal` sent as an explicit `null` is not modelled. JavaScript coerces
  `null` to 0 in `goal - raised`. Only a missing field, which makes the difference
  NaN, is modelled (`Available`).
- `formatAddress`: JavaScript's `slice` indexes UTF-16 code units, while a Dafny
  `string` is indexed by Unicode scalar values. The two agree on the provider's
  hexadecimal addresses but differ on text outside the Basic Multilingual Plane.
- Unmounting the dialog is not modelled. The close button stays usable while a
  request is in flight, and the timer armed at
  `src/components/InvestmentModal.jsx:46-48` is never cleared. So if the dialog is
  closed mid-request and a 2xx reply then arrives, `onComplete` still runs two
  seconds later. `handleInvestmentComplete` then clears the selection and reloads,
  which can close a dialog opened again in the meantime. The dialog model has no
  close step, so it does not capture this interaction between the dialog's lifetime
  and the page.
- Randomness: the `Math.random` chart bar heights in `src/App.jsx`.
- The language setter passed to the language selector. It is a plain field update
  owned by the selector component, which, like the navigation and stats cards, is
  static markup.
- The success screen's text, and all markup, class strings and layout.
