# psiagram client rules, modelled in Dafny

This project models the small pieces of decision logic in the psiagram mobile
client (React Native, TypeScript) and proves what they guarantee. It covers five parts:

- **One-time-code input** (`components/verifyCode.tsx`, module `Otp`). A row
  of `length` boxes, each holding "" or one ASCII digit. The parts modelled are
  paste-fill, single-digit entry with the focus move, Backspace, and the effect
  that reports the code and the completion. The component is the class
  `Otp.OtpInput`. Its field `digits` is replaced on every change, as the
  source's state setter does, and its methods return the box that receives
  focus. Each method is proved equal to a pure step function (`PasteStep`,
  `SetDigitStep`, `KeyPressStep`), and the properties are proved about those
  functions.
- **Notifications screen** (`app/notifications.tsx`, module `Notifications`).
  The relative-time text `timeAgo` as five buckets over whole seconds. Where a
  press leads (`handlePress`). How a row is presented (`renderItem`).
- **Tab bar** (`components/tabBar.tsx`, module `TabBar`). The icon table, the
  allow-list filter, focus computed against the unfiltered route list, the
  centre tab, and the press rule. A press returns the event it emits and the
  route it navigates to.
- **HTTP client interceptors** (`api/client.ts`, module `ApiClient`). The
  request interceptor is a method that sets the Authorization header on the
  request configuration object in place. The response interceptor is a set of
  functions that pass everything through.
- **Placeholder session** (`context/AuthContext.tsx`, module `AuthContext`).
  The class `AuthProvider` holds the `user` field over a persisted key-value
  store. It has `login`, `logout` and `loadUser`, and `isAuthenticated` is
  defined as `user != null`. Two client methods show what a restart after a
  login or a logout yields.

Modules `Wrappers` (an Option type) and `Decimal` (how a template literal
prints an integer, with its inverse) support the others.

`api/client.ts` has no token expiry check, no refresh, no queue of waiting
requests and no replay. It attaches the stored token, and a 401 is only
logged. `ApiClient.ResponseInterceptorIsTransparent` proves that the caller
gets exactly what the transport produced.

Storage is an abstract map, and time is an integer number of milliseconds.
Source paths in the table below start at the repository root directory `psiagram/`.

## Model

| member | source | states |
|---|---|---|
| `Otp.DigitsOnly` | psiagram/components/verifyCode.tsx:36 | Removing non-digits keeps only ASCII digits and never lengthens the text. The result is empty exactly when the text has no digit. |
| `Otp.DigitsOnlyConcat` | psiagram/components/verifyCode.tsx:36 | Removing non-digits from a concatenation gives the concatenation of the separately cleaned parts, so order is kept. |
| `Otp.DigitsOnlyIdempotent` | psiagram/components/verifyCode.tsx:36 | Cleaning a text a second time changes nothing. |
| `Otp.LastOfDigitsOnly` | psiagram/components/verifyCode.tsx:55 | The last character of the cleaned text is the last digit that occurs in the original text. |
| `Otp.LastDigit` | psiagram/components/verifyCode.tsx:55 | The value written into a box is a valid slot. It is "" exactly when the typed value has no digit. Otherwise it is the last digit of the value. |
| `Otp.Kept` | psiagram/components/verifyCode.tsx:36 | The kept text is the prefix of the cleaned digits of length min(digit count, `length`). |
| `Otp.PasteStep` | psiagram/components/verifyCode.tsx:35-46 | A paste fails (returns false) exactly when the text has no digit or there are no boxes. Otherwise the result is `length` valid boxes. Box i holds the i-th kept digit, the later boxes are empty, and the code is the kept digits. Focus goes to min(number kept, `length-1`): the first empty box, or the last box when all boxes are filled. |
| `Otp.SetDigitStep` | psiagram/components/verifyCode.tsx:49-64 | Keeps the box count and box validity, and focus always names a real box. A multi-character value with a digit fills box i with its i-th kept digit, whichever box received it. Focus then goes to min(number kept, `length-1`). Any other value sets box `index` to its last digit, or "", and leaves all other boxes unchanged. Focus then moves to `index+1` only if a digit was written and `index < length-1`. |
| `Otp.KeyPressStep` | psiagram/components/verifyCode.tsx:66-79 | Backspace on a filled box clears only that box. Backspace on an empty box with `index > 0` clears and focuses box `index-1`. Backspace on an empty first box changes nothing. Any other key never changes the boxes. |
| `Otp.Effects` | psiagram/components/verifyCode.tsx:22-27 | `onChangeCode` always receives the joined code. `onComplete` fires exactly when every box is non-empty, and then it receives that code, whose length is `length`. |
| `Otp.FullIffCodeLength` | psiagram/components/verifyCode.tsx:20-24 | For boxes holding at most one character each, the code is never longer than the row. It is exactly as long as the row when every box is filled. |
| `Otp.JoinFilled` | psiagram/components/verifyCode.tsx:39-40 | The row that the paste loop fills joins back to exactly the kept digits. |
| `Otp.PasteEnoughCompletes` | psiagram/components/verifyCode.tsx:24-25 | Pasting at least `length` digits completes the row. The completion receives the first `length` digits. |
| `Otp.TypeThenBackspace` | psiagram/components/verifyCode.tsx:55-71 | Typing one digit into a box and then pressing Backspace there gives the original row with that box emptied. |
| `Otp.NoDigitClearsTarget` | psiagram/components/verifyCode.tsx:50-58 | A value without digits, of any length, empties the receiving box and does not move focus. |
| `Otp.TypingOverFilledBoxRepastes` | psiagram/components/verifyCode.tsx:50-53 | Typing "4" into box 2, which holds "3", yields the value "34". That value takes the paste path, so the row is refilled from box 0. |
| `Otp.OtpInput.constructor` | psiagram/components/verifyCode.tsx:17 | The component starts with `length` empty boxes and the code "". |
| `Otp.OtpInput.Default` | psiagram/components/verifyCode.tsx:12-17 | Without a `length` prop, the component starts with six empty boxes and the code "". |
| `Otp.OtpInput.Code` | psiagram/components/verifyCode.tsx:20 | The code of a valid row is at most `length` long. It is exactly that long when every box is filled. |
| `Otp.OtpInput.SetAllDigitsFromPaste` | psiagram/components/verifyCode.tsx:35-47 | The fill loop writes into a fresh array. The method keeps the invariant and returns true and the focus of `PasteStep`. When no digit survives, it returns false and leaves the boxes unchanged. |
| `Otp.OtpInput.SetDigit` | psiagram/components/verifyCode.tsx:49-64 | Keeps the invariant. The new boxes and the focus are those of `SetDigitStep` applied to the old boxes. |
| `Otp.OtpInput.HandleKeyPress` | psiagram/components/verifyCode.tsx:66-79 | Keeps the invariant. The new boxes and the focus are those of `KeyPressStep` applied to the old boxes. |
| `Otp.OtpInput.Emitted` | psiagram/components/verifyCode.tsx:22-27 | The effect reports the current code. Completion is reported exactly when every box is filled. |
| `Decimal.IntToDecimal` | psiagram/app/notifications.tsx:34 | An integer prints as a non-empty text that begins with '-' exactly when the integer is negative. |
| `Decimal.IntToDecimalInjective` | psiagram/app/notifications.tsx:79-81 | Two different integers never print as the same text. |
| `Decimal.DecimalRoundTrip` | psiagram/app/notifications.tsx:34-43 | Reading the printed digits of a natural number back gives that number. |
| `Notifications.DiffInSeconds` | psiagram/app/notifications.tsx:32 | The whole-second difference is the floor of the millisecond difference divided by 1000, for negative differences too. |
| `Notifications.Bucket` | psiagram/app/notifications.tsx:34-43 | Every difference `d` falls in exactly one bucket: seconds for d < 60 (negative d too, with count d), minutes, hours, days, or weeks from 604800 s. The count is floor(d/unit): 1..59 minutes, 1..23 hours, 1..6 days, and at least one week. |
| `Notifications.BucketMonotone` | psiagram/app/notifications.tsx:34-43 | A larger difference never falls in an earlier bucket. Within one bucket the count never decreases. |
| `Notifications.TimeAgo` | psiagram/app/notifications.tsx:29-44 | The text always ends in " ago". It starts with '-' exactly when the date lies in the future. |
| `Notifications.SingularOnlyForOneWeek` | psiagram/app/notifications.tsx:42-43 | The unit is the singular "week" exactly for differences of 7 to 13 whole days. |
| `Notifications.OneHourIsPlural` | psiagram/app/notifications.tsx:37-38 | Exactly one hour reads "1 hours ago", because the plural is never adjusted. |
| `Notifications.FutureReadsInSeconds` | psiagram/app/notifications.tsx:32-34 | Any future date, however far, reads as a negative number of seconds. |
| `Notifications.PressTarget` | psiagram/app/notifications.tsx:77-83 | A follow goes to `/user/<sender>`. Any other notification goes to `/post/<post>` when its post is truthy. With a null post or post 0 it goes nowhere. |
| `Notifications.PressTargetInjective` | psiagram/app/notifications.tsx:77-83 | Equal routes mean the same kind of target and the same user or post. A follow route never equals a post route. |
| `Notifications.MessageAndIcon` | psiagram/app/notifications.tsx:89-102 | Each of LIKE, COMMENT and FOLLOW has a non-empty message and a non-empty icon. |
| `Notifications.MessageAndIconDistinct` | psiagram/app/notifications.tsx:89-102 | Different notification types never share a message or an icon. |
| `Notifications.RenderItem` | psiagram/app/notifications.tsx:104-130 | The unread style applies exactly when the item is unread. The avatar image appears exactly when `sender_avatar` is truthy. The post thumbnail appears exactly when `post_image` is truthy, and otherwise the type's icon appears. The row also shows the type's message and the `timeAgo` text. |
| `TabBar.GetIcon` | psiagram/components/tabBar.tsx:18-32 | A route outside the five known ones gets "ellipse-outline" whatever its focus. A known route never gets it. |
| `TabBar.UnfocusedIsOutline` | psiagram/components/tabBar.tsx:20-29 | For each known route, the unfocused icon is the focused icon followed by "-outline". |
| `TabBar.IconDeterminesTab` | psiagram/components/tabBar.tsx:18-29 | For known routes, the icon determines both the route and whether it is focused. |
| `TabBar.IsCenter` | psiagram/components/tabBar.tsx:66 | A route gets the centre style exactly when it is "feed", the first allowed tab. |
| `TabBar.CenterTabShowsPaw` | psiagram/components/tabBar.tsx:64-66 | A rendered tab is centred exactly when it is the feed tab. The centre tab shows "paw" when focused and "paw-outline" otherwise. |
| `TabBar.Visible` | psiagram/components/tabBar.tsx:44-45 | Only routes whose name is in `ALLOWED_TABS` are kept, and never more routes than there are. |
| `TabBar.VisibleMembership` | psiagram/components/tabBar.tsx:9-15 | A route gets a tab exactly when it is in the state and its name is allowed. |
| `TabBar.VisibleConcat` | psiagram/components/tabBar.tsx:44-45 | The filter keeps relative order: filtering a concatenation concatenates the filtered parts. |
| `TabBar.VisibleIdempotent` | psiagram/components/tabBar.tsx:44-45 | Filtering the tabs a second time keeps all of them. |
| `TabBar.VisibleUniqueKeys` | psiagram/components/tabBar.tsx:44-45 | The filter keeps route keys distinct. |
| `TabBar.FindIndex` | psiagram/components/tabBar.tsx:47-49 | The result is the first position holding the key, or -1 exactly when no position holds it. |
| `TabBar.Tabs` | psiagram/components/tabBar.tsx:44-66 | There is one tab per kept route, in order. Each tab is focused when `state.index` equals `findIndex` of its key in the unfiltered routes. Its icon is `getIcon` of its name and focus, and its centre flag is `isCenter`. |
| `TabBar.TabFocusedIffAtStateIndex` | psiagram/components/tabBar.tsx:47-50 | With distinct keys, each tab stands for a position i in the unfiltered routes. It is focused exactly when `state.index` is i. |
| `TabBar.AtMostOneFocused` | psiagram/components/tabBar.tsx:47-50 | With distinct keys, at most one tab is focused. |
| `TabBar.HiddenRouteFocusesNothing` | psiagram/components/tabBar.tsx:44-50 | When `state.index` points at a route that has no tab, no tab is focused. |
| `TabBar.OnPress` | psiagram/components/tabBar.tsx:52-61 | A press always emits a preventable "tabPress" aimed at the route's key. It navigates to the route's name exactly when the tab is not focused and the event was not default-prevented. |
| `TabBar.PressNavigatesIffOtherRoute` | psiagram/components/tabBar.tsx:47-61 | With distinct keys, pressing a tab navigates exactly when its route is not the one at `state.index` and the press was not prevented. |
| `ApiClient.GetItem` | psiagram/api/client.ts:29-32 | A read throws exactly when the store fails. Otherwise it yields the stored value, or null when the key is missing. |
| `ApiClient.SessionToken` | psiagram/api/client.ts:23-41 | The token is present exactly when the platform has a store, the read does not throw, and the store holds "session". It is then that entry. |
| `ApiClient.SessionTokenReadsOnlySessionKey` | psiagram/api/client.ts:27-33 | Only the "session" entry of the platform's store affects the token, on the web branch and on the native branch. |
| `ApiClient.BearerRoundTrip` | psiagram/api/client.ts:37 | Stripping "Bearer " from the header value gives back the token unchanged. |
| `ApiClient.AttachToken` | psiagram/api/client.ts:20-44 | Returns the same configuration object. URL and method are untouched. A truthy token sets `Authorization` to "Bearer " + token and leaves the other headers unchanged. A null or empty token, or a read that throws, leaves the headers exactly as they were. |
| `ApiClient.OnRequestError` | psiagram/api/client.ts:45-47 | A request-phase error is rejected with the same error. |
| `ApiClient.OnResponse` | psiagram/api/client.ts:53 | A successful response passes through unchanged. |
| `ApiClient.OnResponseError` | psiagram/api/client.ts:54-60 | Every error, a 401 included, is rejected with the same error object. Only a response with status 401 is logged. |
| `ApiClient.ResponseInterceptorIsTransparent` | psiagram/api/client.ts:52-61 | The caller sees exactly what the transport produced. Nothing is refreshed, retried or replayed. |
| `AuthContext.StoredToken` | psiagram/context/AuthContext.tsx:67-69 | `loadUser` accepts a stored token exactly when "token" is present and non-empty. |
| `AuthContext.RestoredUser` | psiagram/context/AuthContext.tsx:66-77 | With no acceptable token the user is unchanged. With token t the user becomes {id 1, "test@example.com", t}. |
| `AuthContext.LoginThenRestore` | psiagram/context/AuthContext.tsx:43-50 | After a login the stored entries restore a user carrying "fake-token-123". That user has the fixed restored e-mail, not the login's. |
| `AuthContext.LogoutThenRestore` | psiagram/context/AuthContext.tsx:57-69 | After a logout, `loadUser` leaves the user as it was. |
| `AuthContext.AuthProvider.constructor` | psiagram/context/AuthContext.tsx:33 | A provider starts with no user, so it is not authenticated. It meets the invariant that a signed-in user carries a non-empty token. |
| `AuthContext.AuthProvider.IsAuthenticated` | psiagram/context/AuthContext.tsx:61 | `!!user` is true exactly when a user is set, because a user object is always truthy. Under the invariant, an authenticated provider's user has a non-empty token. |
| `AuthContext.AuthProvider.Login` | psiagram/context/AuthContext.tsx:38-51 | The user becomes {id 1, email, "fake-token-123"}, and the password is ignored. The provider is authenticated, and "token" is stored with the other entries unchanged. The token invariant is kept. |
| `AuthContext.AuthProvider.Logout` | psiagram/context/AuthContext.tsx:55-58 | The user becomes null, so the provider is not authenticated. Only the "token" entry is removed. The token invariant is kept. |
| `AuthContext.AuthProvider.LoadUser` | psiagram/context/AuthContext.tsx:66-77 | The user becomes `RestoredUser` of the stored entries and the old user. Afterwards the provider is authenticated exactly when it was before or the store holds a non-empty token. The token invariant is kept. |
| `AuthContext.RestartAfterLogin` | psiagram/context/AuthContext.tsx:38-80 | A new provider over the store that a login wrote comes up authenticated with "fake-token-123". |
| `AuthContext.RestartAfterLogout` | psiagram/context/AuthContext.tsx:55-80 | A new provider over the store that a logout cleared comes up with no user. |

Notes on behaviour:

- In the OTP input, a box that already holds a digit receives a two-character
  value when a second digit is typed. That value takes the paste path of
  `setDigit`, so the row is refilled from the first box
  (`Otp.TypingOverFilledBoxRepastes`). The model reproduces this as written.
- `onComplete` checks both the code length and that every box is non-empty.
  Under the component's invariant these two checks are equivalent
  (`Otp.FullIffCodeLength`).

## Left out

- Rendering: JSX, styles, and the avatar and thumbnail image loading. A row
  is modelled as the values it shows.
- React scheduling: `useState` batching and `useEffect`/`useMemo` timing.
  Each state update is modelled as taking effect at once, and the change effect
  is a function of the current boxes.
- Refs and the 50 ms autofocus timer in verifyCode.tsx. These are UI effects.
  Each `?.focus()` call is modelled as the returned box index.
- A change of the `length` prop after mount. `length` is a constant of
  `Otp.OtpInput`. The source reads the prop on every render: in the completion
  check, the paste, the focus bound and `maxLength`. The `digits` state,
  however, is sized only when it is created. A new `length` would leave the two
  disagreeing, a case the model cannot express. The only use of the component
  in the repository, in `app/(auth)/forgotPassword.tsx`, passes the constant 6.
- Fetching the notifications and marking them read (`fetchNotifications`), and
  the screen's loading and refreshing flags. These are network calls and UI state.
- Parsing `created_at` and invalid dates (NaN). `timeAgo` takes the two
  instants as integer milliseconds.
- Numbers that JavaScript prints in exponent form (at least 1e21) or cannot
  represent exactly. Counts and ids are unbounded integers.
- Notification types outside the declared union 'LIKE' | 'COMMENT' | 'FOLLOW'.
  For such a value, the switch would leave the message and icon empty.
- Navigation itself: `router.push` and `navigation.navigate`. They appear as
  the returned route.
- TabBar.TabFocusedIffAtStateIndex, TabBar.AtMostOneFocused,
  TabBar.HiddenRouteFocusesNothing, TabBar.PressNavigatesIffOtherRoute: these
  assume distinct route keys, which the navigation library maintains. With
  duplicate keys, `findIndex` returns the first matching position; that case is
  covered only by the contracts of `TabBar.FindIndex` and `TabBar.Tabs`.
- Creating the axios client, registering the interceptors, and the transport.
  The transport's outcome is an input of
  `ApiClient.ResponseInterceptorIsTransparent`.
- Console output. Only the fact that a 401 is logged is modelled.
- Failing or rejected writes to AsyncStorage in `login` and `logout`, and where
  the state update and the awaited write interleave. Writes are modelled as
  always succeeding.
- AuthContext.AuthProvider.LoadUser: models the awaited read of "token" and the
  following `setUser` as one atomic step. In the source, a `login` or `logout`
  that completes between the two is overwritten, so a logout there is undone.
  The model cannot express that interleaving.
- context/ctx.tsx and app/_layout.tsx are not part of this model. `ctx.tsx` is a
  second session provider. Its `signIn` is a network login call, and its
  session lives in the `useStorageState("session")` hook, whose storage
  behaviour this model does not cover. The layout's redirect on
  `isAuthenticated` has no logic of its own.
- Token expiry, refresh, request replay and a forced logout after a 401. The
  code does none of these: `api/client.ts` only logs the 401.
