# Usage quota of the website-builder home page

This project models the usage-quota state machine of the home page of a
website-generation front end (`Home.tsx`). The page holds a usage record: a
tier (`free`, `pro` or `enterprise`) and a counter of remaining free prompts.
It holds the prompt being typed. It receives the sign-in state and the
signed-in user, whose profile metadata is one of two stores for the record.
The browser's local store, under the key `"usage"`, is the other.

- `text.dfy` (module `Text`) models JavaScript's `String.prototype.trim`,
  which decides whether a prompt has text.
- `quota.dfy` (module `Quota`) holds the record, the profile metadata and the
  `||` defaults applied when reading it back, the quota guard and the two
  display conditions.
- `home.dfy` (module `Home`) holds the page state as a value (`Page`) and the
  two operations as functions, `Loaded` and `Submitted`. Beside them sits the
  class `HomePage`, whose fields the methods `Load`, `AuthChanged`, `Edit` and
  `Submit` update in place. Each method's ensures gives the whole new state,
  in terms of `Loaded`, `Submitted` or the old state. The
  lemmas state the submission cascade, the store round trips, the bound on
  accepted free prompts and the display policy.

Alerts and navigation are not performed. `Submit` returns them as an
`Outcome`: the alert text, the route (`/pricing` or `/builder`) and the prompt
handed to the builder. The authentication provider is represented by the
fields `signedIn` and `user`; a signed-in user object is `Some(metadata)`.

Behaviour of the code worth noting:

- The code checks sign-in first, then the quota, then the blank prompt. A
  blank prompt from an exhausted free user is redirected to `/pricing`, not
  ignored (`SubmitExhausted`).
- The counter is not kept non-negative for every tier. Paid tiers are never
  refused and their counter keeps going down below zero (`PaidTierNeverRefused`).
  Only the free counter stays non-negative (`FreeCounterStaysNonNegative`,
  and `FreeSessionBounded` while the page stays mounted).
- A record read back from the profile is not always the one written: a stored
  counter of 0 is falsy and reads back as 3, so a free user who used the last
  prompt gets the full allowance again on the next load
  (`ProfileReloadAfterSubmit`, `ThreePromptsThenPricing`). Every accepted or
  refused-for-quota submission navigates away, so the next submission follows
  a fresh mount and load: a signed-in user with a user object is then never
  refused for quota (`RemountsNeverRefused`). The model keeps this behaviour
  as written.
- A signed-in user whose user object is not yet present reads from and writes
  to the local store, as the code does.

## Model

| member | source | states |
|---|---|---|
| `Text.IsWhitespace` | bolt.newer-main/frontend/src/pages/Home.tsx:62 | the characters `trim` strips: ECMAScript white space and line terminators, all of them in the Basic Multilingual Plane |
| `Text.LeadingSpace` | bolt.newer-main/frontend/src/pages/Home.tsx:62 | the count of leading characters `trim` strips: all of them are whitespace and the next one is not |
| `Text.TrailingSpace` | bolt.newer-main/frontend/src/pages/Home.tsx:62 | the count of trailing characters `trim` strips: all of them are whitespace and the one before them is not |
| `Text.TrimBounds` | bolt.newer-main/frontend/src/pages/Home.tsx:62 | the kept slice of `prompt.trim()`: only whitespace lies outside it, and a non-empty slice starts and ends with non-whitespace |
| `Text.Trim` | bolt.newer-main/frontend/src/pages/Home.tsx:62 | the trimmed prompt is the slice of the prompt that starts right after its leading whitespace and is followed only by whitespace, and, if not empty, has no whitespace at either end |
| `Text.TrimIsInfix` | bolt.newer-main/frontend/src/pages/Home.tsx:62 | the prompt is some whitespace, then `prompt.trim()`, then some whitespace |
| `Text.HasText` | bolt.newer-main/frontend/src/pages/Home.tsx:62 | the truthiness of `prompt.trim()`: the trimmed prompt is not empty, so an empty or all-whitespace prompt has no text |
| `Text.HasTextIff` | bolt.newer-main/frontend/src/pages/Home.tsx:62 | `prompt.trim()` is truthy exactly when some character of the prompt is not whitespace |
| `Quota.ToProfile` | bolt.newer-main/frontend/src/pages/Home.tsx:71 | the profile write stores exactly the record: its tier and its counter |
| `Quota.FromProfile` | bolt.newer-main/frontend/src/pages/Home.tsx:27-30 | reading the profile: an absent tier reads as free; the counter is never 0, it is the stored value when that is present and non-zero, and 3 otherwise |
| `Quota.ProfileRoundTrip` | bolt.newer-main/frontend/src/pages/Home.tsx:30 | writing a record to the profile and reading it back is the identity exactly when the counter is not 0; a 0 counter reads back as 3 |
| `Quota.EmptyProfileIsInitial` | bolt.newer-main/frontend/src/pages/Home.tsx:27-30 | a profile with no fields reads as the initial record `{free, 3}` |
| `Quota.Exhausted` | bolt.newer-main/frontend/src/pages/Home.tsx:56 | the quota guard: a free record with a counter at or below 0; it never holds for another tier |
| `Quota.Consumed` | bolt.newer-main/frontend/src/pages/Home.tsx:63-66 | the record after an accepted prompt: the same tier and a counter one lower |
| `Quota.ShowsFreeCounter` | bolt.newer-main/frontend/src/pages/Home.tsx:205-213 | the indicator shows "Free Tokens: n/3" for the free tier and the unlimited badge exactly for pro and enterprise |
| `Quota.ShowsUpgradeBanner` | bolt.newer-main/frontend/src/pages/Home.tsx:386 | the banner shows exactly for a free record with at most one prompt left |
| `Quota.DisplayPolicy` | bolt.newer-main/frontend/src/pages/Home.tsx:386 | the upgrade banner shows only with the free counter, always for an exhausted free user, and never for a paid tier |
| `Quota.PaidTierNeverExhausted` | bolt.newer-main/frontend/src/pages/Home.tsx:56 | the quota guard never holds for a pro or enterprise record, whatever its counter |
| `Quota.ConsumeKeepsFreeCounterNonNegative` | bolt.newer-main/frontend/src/pages/Home.tsx:56-66 | a free record that passes the guard has at least one prompt left, and spending one keeps the tier and leaves the counter non-negative |
| `Home.Mounted` | bolt.newer-main/frontend/src/pages/Home.tsx:13-21 | before any load the record is `{free, 3}` and the prompt is empty, with the given sign-in state and stores |
| `Home.Loaded` | bolt.newer-main/frontend/src/pages/Home.tsx:25-35 | loading changes only the record: from the profile with its defaults when signed in with a user object, otherwise the local record if one is stored, otherwise the record stays |
| `Home.Submitted` | bolt.newer-main/frontend/src/pages/Home.tsx:48-79 | a submission is accepted exactly when signed in, not exhausted and the prompt has text; a refused one changes nothing; an accepted one navigates to `/builder` with the prompt and lowers the counter by one with the tier kept |
| `Home.ShowsTokenCounter` | bolt.newer-main/frontend/src/pages/Home.tsx:198-208 | the free counter is on screen only for a signed-in user on the free tier |
| `Home.ShowsPremiumBadge` | bolt.newer-main/frontend/src/pages/Home.tsx:198-213 | the premium badge is on screen only for a signed-in pro or enterprise user |
| `Home.ShowsSubmitButton` | bolt.newer-main/frontend/src/pages/Home.tsx:321 | the Generate button shows only for a signed-in user with a non-empty prompt that has text |
| `Home.IndicatorPolicy` | bolt.newer-main/frontend/src/pages/Home.tsx:198-213 | a signed-in user sees exactly one of the free counter and the premium badge, a signed-out user neither; the banner implies the counter for a signed-in user |
| `Home.SubmitSignedOut` | bolt.newer-main/frontend/src/pages/Home.tsx:51-54 | a signed-out submission raises the sign-in alert and leaves the record, the prompt and both stores unchanged |
| `Home.SubmitExhausted` | bolt.newer-main/frontend/src/pages/Home.tsx:56-60 | a signed-in free user with a counter at or below 0 is sent to `/pricing` with the limit alert and nothing changes, even when the prompt is empty |
| `Home.SubmitBlankPrompt` | bolt.newer-main/frontend/src/pages/Home.tsx:62-78 | a signed-in submission that passes the quota check with an all-whitespace prompt changes nothing and navigates nowhere |
| `Home.SubmitAccepted` | bolt.newer-main/frontend/src/pages/Home.tsx:62-77 | on acceptance the whole new state: the counter one lower with the tier kept, that record in the profile if there is a user object and in the local store otherwise, the prompt cleared, navigation to `/builder` with the original prompt |
| `Home.PaidTierNeverRefused` | bolt.newer-main/frontend/src/pages/Home.tsx:56-66 | a signed-in pro or enterprise user with text is always accepted, and the counter still goes down, below zero if need be |
| `Home.FreeCounterStaysNonNegative` | bolt.newer-main/frontend/src/pages/Home.tsx:56-65 | a free record with a non-negative counter keeps one after a submission, and is accepted only with at least one prompt left |
| `Home.SubmitButtonAccepts` | bolt.newer-main/frontend/src/pages/Home.tsx:321-323 | the Generate button shows exactly for a signed-in user whose prompt has a non-whitespace character, and a submission is accepted exactly when the button shows and the user is not exhausted |
| `Home.LocalStoreRoundTrip` | bolt.newer-main/frontend/src/pages/Home.tsx:24-77 | without a user object, the record a submission writes to the local store is the record the next load reads back |
| `Home.ProfileReloadAfterSubmit` | bolt.newer-main/frontend/src/pages/Home.tsx:24-77 | with a user object, the next load reads back the record just written exactly when its counter is not 0; the last free prompt reloads as 3 |
| `Home.Session` | bolt.newer-main/frontend/src/pages/Home.tsx:48-79 | submissions one after another on one mounted page, each after typing its text; one outcome per text and the sign-in state kept |
| `Home.FreeSessionBounded` | bolt.newer-main/frontend/src/pages/Home.tsx:56-77 | in any run of submissions on one mounted page without a reload, a free user starting with n >= 0 prompts is accepted exactly as often as the counter fell, hence at most n times, and keeps a non-negative free counter |
| `Home.ThreePromptsThenPricing` | bolt.newer-main/frontend/src/pages/Home.tsx:18-77 | a new signed-in user with an empty profile loads `{free, 3}`, gets three prompts accepted and ends at `{free, 0}` in the profile; on the same mounted page a fourth submission goes to `/pricing`, but after a remount the profile reloads as `{free, 3}` and a fourth visit is accepted |
| `Home.Visit` | bolt.newer-main/frontend/src/pages/Home.tsx:18-77 | one visit: a fresh mount and load, typing the text, then a submit; the sign-in state is kept and an accepted visit hands that text to the builder |
| `Home.Visits` | bolt.newer-main/frontend/src/pages/Home.tsx:18-77 | visits one after another, each on a fresh mount; one outcome per text and the sign-in state kept |
| `Home.ProfileNeverExhaustedAfterRemount` | bolt.newer-main/frontend/src/pages/Home.tsx:18-77 | a signed-in user whose profile does not read as exhausted is accepted on a fresh mount, load and submit with text, and the profile then written again does not read as exhausted |
| `Home.RemountsNeverRefused` | bolt.newer-main/frontend/src/pages/Home.tsx:18-77 | across any number of visits, each a fresh mount and load followed by a submit with text, a signed-in user with a non-exhausted profile is accepted every time |
| `Home.HomePage.constructor` | bolt.newer-main/frontend/src/pages/Home.tsx:12-21 | the mounted component holds the initial record and an empty prompt |
| `Home.HomePage.Load` | bolt.newer-main/frontend/src/pages/Home.tsx:24-36 | the new state is `Loaded` of the old one |
| `Home.HomePage.AuthChanged` | bolt.newer-main/frontend/src/pages/Home.tsx:24-39 | a new sign-in state or user re-runs the load: the new state is `Loaded` of the old one with those inputs replaced |
| `Home.HomePage.Edit` | bolt.newer-main/frontend/src/pages/Home.tsx:314 | typing replaces the prompt and nothing else |
| `Home.HomePage.Submit` | bolt.newer-main/frontend/src/pages/Home.tsx:48-79 | the new state and the returned outcome are exactly `Submitted` of the old state |

## Left out

- Rendering, styling and animation, the sidebar hover flag and the recommendation buttons that fill in the prompt: presentation with nothing to state beyond the display conditions modelled above.
- The file-upload handler: it only logs the chosen file.
- The authentication widgets and hooks: their sign-in state and user object are inputs (`signedIn`, `user`), and the profile metadata is the value inside `user`.
- JSON encoding of the local record: the local store holds the record itself, so a malformed stored string, which the code would fail to parse, is not modelled.
- The profile write is awaited in the code; here it is one atomic update, and a failed write is not modelled. Re-render timing and effect scheduling are not modelled beyond `AuthChanged` re-running the load.
- The counter is a JavaScript number (a double); only integer values are modelled, so a stored non-integer, `NaN` or a tier value outside the three names is not. The tier is read with `||`, and every modelled tier name is truthy, so only an absent tier falls back to free.
- The profile is the current user's only: signing out drops the user object, and what another user's profile holds is not modelled.
- Home.Session: a sitting assumes the page stays mounted across navigation, although an accepted submission navigates to `/builder` and a quota refusal to `/pricing`; `FreeSessionBounded` holds only on that assumption. The remounting path is `Visits`, where the profile path never refuses (`RemountsNeverRefused`).
- Text.IsWhitespace: characters are Unicode scalar values, while a JavaScript string is UTF-16 code units and may hold lone surrogates; this does not change `trim`, since every code point it strips is in the Basic Multilingual Plane and no surrogate is whitespace.
- Quota.Consumed: the decrement is exact integer subtraction, which a double matches only while -2^53 < counter <= 2^53; above that `remainingTokens - 1` can round back to the same value, so `Home.SubmitAccepted`, `Home.PaidTierNeverRefused` and `Home.FreeSessionBounded` describe such a stored counter more exactly than the code computes it.
