# FlowMate client core in Dafny

This project models the decision logic and client-side state of FlowMate. FlowMate is a web client for a service that links WhatsApp group chats to project-management tools. Each source file in the core has its own Dafny module:

- `WhatsappBot` (`whatsapp_bot.dfy`) models the bot pairing page as a class. Its fields are the status banner, the debug record (`socketId`, `botConnected`, `botNumber`, `activeConnections`, `qrAvailable`), the QR code slot, the instruction list, the append-only message log and the events sent to the server. There is one method per socket event, REST reply, button and timer callback. The 15-second tick has two: `StaleQrTick` runs it as the page does, with its guard read from the first render, and `AutoQrTick` runs it as its comment describes (see Findings). Each method is specified by a pure function on a snapshot of that state (`Page`). The lemmas are about those functions and about runs of events (`Step`, `Run`).
- `BaseQuery` (`base_query.dfy`) models header preparation, which sets the bearer token on a mutable header map, and the retry-once-on-401 request wrapper.
- `FirebaseErrorUtils` (`firebase_error_utils.dfy`) models the total classifier from an error shape to a user-facing message. The precedence is: provider code first, then HTTP status, then the network and timeout heuristics, then a fallback.
- `AuthApi` (`auth_api.dfy`) models the register, login and logout mutations and the current-user query. It covers their input checks in order, which email the provider receives, how errors are tagged as provider or custom errors, and the cache tags.
- `LoginPage` (`login.dfy`) models the login form as a class: its checks before calling the mutation, how a rejected login becomes the message shown, and which message the form displays.
- `Pricing` (`pricing.dfy`) covers the landing page's prices. The yearly price is in exact integer arithmetic. The price label has en-US digit grouping. The billing-period toggle is a class.
- `RouteGuards` (`route_guards.dfy`) models the protected and public route decisions.
- `Settings` (`settings.dfy`) models the notification switches as a class, the avatar initials, and the role-dependent badge and Remove button.
- `Text` (`text.dfy`) holds shared string helpers:
  - JavaScript's `trim` whitespace set;
  - substring search;
  - decimal rendering and its parser.

Outside inputs are parameters. The identity provider, the backend, `fetch`, the socket, `window.confirm`, `encodeURIComponent` and the timers are not modelled; a parameter carries what each of them delivers. A JavaScript string that may be falsy is modelled as a `string`, with `""` for the falsy case. A value that may be `null` or `undefined` is an `Option`.

The specification and the code differ in three places. The model follows the code:
- A `whatsapp:qr` event without QR data still marks a QR code as available (`OnWhatsappQr`).
- `bot:connected` leaves `qrAvailable` as it was (`OnBotConnected`, `QrFlagSticks`).
- Events merge into the debug record rather than replacing it.

## Model

| member | source | states |
|---|---|---|
| WhatsappBot.WhatsappBotClient.constructor | src/pages/WhatsappBot.tsx:5-15 | The page starts connecting: no socket id, bot not connected, no number, zero connections, no QR code, an empty log, and the single instruction "Connecting to server...". |
| WhatsappBot.Log | src/pages/WhatsappBot.tsx:139-147 | `addMessage` appends exactly one entry at the end of the log and changes nothing else. |
| WhatsappBot.WhatsappBotClient.AddMessage | src/pages/WhatsappBot.tsx:139-147 | The method appends that one entry to the page's log field. |
| WhatsappBot.Received | src/pages/WhatsappBot.tsx:27-30 | Every server event is first logged by name, and nothing else changes. |
| WhatsappBot.OnConnect | src/pages/WhatsappBot.tsx:33-38 | `connect` records the socket id, shows it in the banner with the connected class, and logs one success entry. The instructions and the QR code are kept. |
| WhatsappBot.OnConnectError | src/pages/WhatsappBot.tsx:40-44 | `connect_error` sets the banner to "❌ Connection Error: " followed by the error's message, with the disconnected class, and logs the same text as an error. The debug record, QR slot, instructions and emitted events are kept. |
| WhatsappBot.OnDisconnect | src/pages/WhatsappBot.tsx:46-50 | `disconnect` sets the banner to "❌ Disconnected: " followed by the reason, with the disconnected class, and logs the same text as an error. The debug record, socket id included, and the emitted events are kept. |
| WhatsappBot.OnMessage | src/pages/WhatsappBot.tsx:53-56 | A server `message` only adds two log entries, the last being the server's text. |
| WhatsappBot.OnPong | src/pages/WhatsappBot.tsx:59-72 | A pong carrying bot status copies connected, number and connection count into the debug record. A plain pong leaves the record unchanged. Either way the log grows. |
| WhatsappBot.OnBotStatus | src/pages/WhatsappBot.tsx:75-84 | `bot:status` overwrites `botConnected`, `botNumber` and `activeConnections` and keeps `socketId` and `qrAvailable`. The banner, QR code and instructions are unchanged. |
| WhatsappBot.OnSetupInstructions | src/pages/WhatsappBot.tsx:87-91 | `bot:setup-instructions` replaces the instruction list and logs the message last. The debug record and QR code are kept. |
| WhatsappBot.OnBotConnected | src/pages/WhatsappBot.tsx:94-104 | `bot:connected` sets the bot connected with the event's number and connection count, and replaces the instructions. It leaves `qrAvailable` and `socketId` unchanged. |
| WhatsappBot.QrCodeFor | src/pages/WhatsappBot.tsx:153-192 | The QR slot keeps the data and its length. It holds image links exactly when encoding succeeds. Both links carry the same encoded data after their service's prefix. The processed data equals the original. |
| WhatsappBot.DisplayQrCode | src/pages/WhatsappBot.tsx:149-193 | `displayQRCode` fills the QR slot and changes nothing else but the log. It logs a detection note only for data with `@`, `,` and `=`. The last entry reports success, or the encoding error. |
| WhatsappBot.LooksWhatsappEncoded | src/pages/WhatsappBot.tsx:158 | The WhatsApp-format test holds exactly when the data `includes` `@`, `,` and `=`. |
| WhatsappBot.OnWhatsappQr | src/pages/WhatsappBot.tsx:107-119 | `whatsapp:qr` always sets `qrAvailable`. Non-empty QR data is displayed, with the instructions defaulting to empty, and the last entry is the success entry "📱 QR Code received and displayed!". Otherwise the QR slot and instructions are unchanged, and exactly the event note and an error entry are logged. |
| WhatsappBot.RequestQr | src/pages/WhatsappBot.tsx:195-213 | `requestQR` logs the request first. A successful reply fills the QR slot and instructions. A failure leaves them unchanged. The debug record, `qrAvailable` included, is never changed. |
| WhatsappBot.AutoTickAsWritten | src/pages/WhatsappBot.tsx:121-137 | The tick as written requests a QR code on every call, whatever the current state. |
| WhatsappBot.AutoTick | src/pages/WhatsappBot.tsx:121-127 | The intended tick leaves the page untouched exactly when a QR code is available or the bot is connected. Otherwise it is exactly `requestQR`. It never changes the debug record. |
| WhatsappBot.GenerateQr | src/pages/WhatsappBot.tsx:215-241 | `generateQR` adds exactly two log entries, a warning then a success or an error, and changes nothing else. |
| WhatsappBot.GenerateQrWait | src/pages/WhatsappBot.tsx:229-233 | The follow-up timer logs a waiting note exactly when no QR code was available at the click. |
| WhatsappBot.RestartBot | src/pages/WhatsappBot.tsx:243-279 | A declined confirm changes nothing. A successful restart clears `botConnected`, `botNumber`, `qrAvailable` and the QR slot, and keeps `socketId` and `activeConnections`. Any other outcome only logs. |
| WhatsappBot.RestartWait | src/pages/WhatsappBot.tsx:269-271 | The restart timer appends one waiting entry and changes nothing else. |
| WhatsappBot.CheckBotStatus | src/pages/WhatsappBot.tsx:281-300 | A status reply sets `botConnected` iff the status is `"connected"`, and sets `qrAvailable` to `hasQR`, along with the number and connection count. A failed request keeps the record. Exactly two entries are logged. |
| WhatsappBot.SendPing | src/pages/WhatsappBot.tsx:302-305 | A ping logs one entry, sends one `ping` event, and changes nothing else. |
| WhatsappBot.ClearMessages | src/pages/WhatsappBot.tsx:307-309 | Clearing empties the log and changes nothing else. |
| WhatsappBot.Step | src/pages/WhatsappBot.tsx:27-309 | Each event runs its handler; a server event with no handler of its own is only logged by the catch-all listener. Every event but a clear keeps the old log as a prefix of the new one, and every event but a ping leaves the emitted events unchanged. |
| WhatsappBot.Run | src/pages/WhatsappBot.tsx:21-137 | A run of events applies them in order. A run without a ping sends nothing to the server. |
| WhatsappBot.LogOnlyGrows | src/pages/WhatsappBot.tsx:139-147 | Over any run of events without a clear, the log only grows and earlier entries are never rewritten. |
| WhatsappBot.SocketIdOnlyFromConnect | src/pages/WhatsappBot.tsx:33-38 | Over any run without a `connect`, the socket id is unchanged. |
| WhatsappBot.QrFlagSticks | src/pages/WhatsappBot.tsx:94-104 | Once `qrAvailable` is set, it stays set until a successful restart or a status reply, whatever else arrives, `bot:connected` included. |
| WhatsappBot.TicksIdleOnceQrArrived | src/pages/WhatsappBot.tsx:121-127 | While a QR code is available, any number of intended ticks leave the page unchanged. |
| WhatsappBot.QrEventStopsTicks | src/pages/WhatsappBot.tsx:107-127 | Any `whatsapp:qr` event, even an invalid one, makes the next intended tick idle. |
| WhatsappBot.StaleTickRequestsDespiteQr | src/pages/WhatsappBot.tsx:121-137 | Right after a QR code arrives, the tick as written still requests one, while the intended tick does nothing. |
| WhatsappBot.StaleTicksNeverSettle | src/pages/WhatsappBot.tsx:121-137 | Each tick as the page runs it adds at least one log entry, whatever the state, so a run of them never settles. |
| WhatsappBot.ConnectedBotIsNotAskedForQr | src/pages/WhatsappBot.tsx:94-127 | After `bot:connected`, the intended tick makes no request. |
| WhatsappBot.RestartThenStatus | src/pages/WhatsappBot.tsx:259-294 | A status reply after a successful restart sets every bot field from the reply, and the QR slot stays empty. |
| WhatsappBot.WhatsappBotClient.Connect | src/pages/WhatsappBot.tsx:33-38 | The handler's new state is `OnConnect` of the old state. |
| WhatsappBot.WhatsappBotClient.ConnectError | src/pages/WhatsappBot.tsx:40-44 | The handler's new state is `OnConnectError` of the old state. |
| WhatsappBot.WhatsappBotClient.Disconnect | src/pages/WhatsappBot.tsx:46-50 | The handler's new state is `OnDisconnect` of the old state. |
| WhatsappBot.WhatsappBotClient.Message | src/pages/WhatsappBot.tsx:53-56 | The handler's new state is `OnMessage` of the old state. |
| WhatsappBot.WhatsappBotClient.HandlePong | src/pages/WhatsappBot.tsx:59-72 | The handler's new state is `OnPong` of the old state. |
| WhatsappBot.WhatsappBotClient.HandleBotStatus | src/pages/WhatsappBot.tsx:75-84 | The handler's new state is `OnBotStatus` of the old state. |
| WhatsappBot.WhatsappBotClient.HandleSetupInstructions | src/pages/WhatsappBot.tsx:87-91 | The handler's new state is `OnSetupInstructions` of the old state. |
| WhatsappBot.WhatsappBotClient.HandleBotConnected | src/pages/WhatsappBot.tsx:94-104 | The handler's new state is `OnBotConnected` of the old state. |
| WhatsappBot.WhatsappBotClient.DisplayQRCode | src/pages/WhatsappBot.tsx:149-193 | The new state is `DisplayQrCode` of the old state. |
| WhatsappBot.WhatsappBotClient.HandleWhatsappQr | src/pages/WhatsappBot.tsx:107-119 | The handler's new state is `OnWhatsappQr` of the old state. |
| WhatsappBot.WhatsappBotClient.RequestQR | src/pages/WhatsappBot.tsx:195-213 | The new state is `RequestQr` of the old state. |
| WhatsappBot.WhatsappBotClient.StaleQrTick | src/pages/WhatsappBot.tsx:121-137 | The tick as the page runs it: the new state is `AutoTickAsWritten` of the old state, with the guard read from the first render's record. |
| WhatsappBot.WhatsappBotClient.AutoQrTick | src/pages/WhatsappBot.tsx:121-127 | The tick's new state is `AutoTick` of the old state, with the guard read from the current record. |
| WhatsappBot.WhatsappBotClient.GenerateQR | src/pages/WhatsappBot.tsx:215-241 | The new state is `GenerateQr` of the old state. |
| WhatsappBot.WhatsappBotClient.GenerateQRTimer | src/pages/WhatsappBot.tsx:229-233 | The new state is `GenerateQrWait` of the old state. |
| WhatsappBot.WhatsappBotClient.RestartBotClick | src/pages/WhatsappBot.tsx:243-279 | The new state is `RestartBot` of the old state. |
| WhatsappBot.WhatsappBotClient.RestartTimer | src/pages/WhatsappBot.tsx:269-271 | The new state is `RestartWait` of the old state. |
| WhatsappBot.WhatsappBotClient.CheckStatus | src/pages/WhatsappBot.tsx:281-300 | The new state is `CheckBotStatus` of the old state. |
| WhatsappBot.WhatsappBotClient.Ping | src/pages/WhatsappBot.tsx:302-305 | The new state is `SendPing` of the old state. |
| WhatsappBot.WhatsappBotClient.Clear | src/pages/WhatsappBot.tsx:307-309 | The new state is `ClearMessages` of the old state. |
| BaseQuery.WithBearer | src/store/api/baseQuery.ts:10-12 | With a token, `authorization` is `"Bearer " + token` and `content-type` is `application/json`. Every other header is kept, and no other key is added. |
| BaseQuery.HeadersFor | src/store/api/baseQuery.ts:6-18 | With a user and a token the bearer headers are set. With no user or a failing token fetch the headers are untouched. |
| BaseQuery.Headers.Set | src/store/api/baseQuery.ts:11-12 | `headers.set` replaces one entry of the mutable header map. |
| BaseQuery.PrepareHeaders | src/store/api/baseQuery.ts:6-18 | Preparing headers in place leaves the map equal to `HeadersFor` of the old map. |
| BaseQuery.Send | src/store/api/baseQuery.ts:22-23 | The headers one request is sent with are `HeadersFor` of the initial headers. |
| BaseQuery.BaseQueryWithRetry | src/store/api/baseQuery.ts:22-38 | Without a 401 there is exactly one call, and its result is returned. With a 401 and no user there is no refresh and no retry. With a user a forced refresh is made; if it succeeds, exactly one retry is sent with the new token and its result is returned as it is. If the refresh fails, the 401 is returned. There are never more than two calls. |
| FirebaseErrorUtils.KnownAuthMessage | src/lib/firebaseErrorUtils.ts:8-61 | Every listed `auth/` code has a non-empty fixed message. |
| FirebaseErrorUtils.CodeStage | src/lib/firebaseErrorUtils.ts:5-70 | The code stage answers exactly for codes starting with `auth/`, always with a non-empty message. |
| FirebaseErrorUtils.ResponseStage | src/lib/firebaseErrorUtils.ts:73-101 | The response stage always gives a non-empty message. |
| FirebaseErrorUtils.ServerMessage | src/lib/firebaseErrorUtils.ts:75 | The server's text is its `message` when non-empty, else its `error`, and empty when there is no data. |
| FirebaseErrorUtils.GetFirebaseErrorMessage | src/lib/firebaseErrorUtils.ts:3-115 | The classifier is total and never returns the empty string. |
| FirebaseErrorUtils.ListedCodeWins | src/lib/firebaseErrorUtils.ts:5-61 | A listed code gives its fixed message even when a response is present. |
| FirebaseErrorUtils.AuthCodeIgnoresRest | src/lib/firebaseErrorUtils.ts:5-68 | For an `auth/` code, the response and message make no difference. |
| FirebaseErrorUtils.ConfigurationCodesAgree | src/lib/firebaseErrorUtils.ts:32-35 | `auth/invalid-api-key` and `auth/app-deleted` give the same message. |
| FirebaseErrorUtils.UnlistedAuthCode | src/lib/firebaseErrorUtils.ts:63-67 | An unlisted `auth/` code gives the generic authentication message. |
| FirebaseErrorUtils.ForeignCodeFallsThrough | src/lib/firebaseErrorUtils.ts:63-114 | Any other code falls through to the response, network, timeout and fallback stages. |
| FirebaseErrorUtils.FixedStatusIgnoresServer | src/lib/firebaseErrorUtils.ts:80-97 | For 401, 403, 404, 429, 500, 502, 503 and 504 the message is fixed and the server's data is ignored. |
| FirebaseErrorUtils.ServerMessagePreferred | src/lib/firebaseErrorUtils.ts:75-99 | For 400, 409, 422 and unlisted statuses, the server's `message`, else its `error`, is preferred over the default. |
| FirebaseErrorUtils.NetworkBeforeTimeout | src/lib/firebaseErrorUtils.ts:104-110 | An error matching both heuristics is reported as a network error. |
| FirebaseErrorUtils.Fallback | src/lib/firebaseErrorUtils.ts:114 | When nothing else matches, the message is returned, or the generic text when the message is empty. |
| AuthApi.TagError | src/store/api/authApi.ts:92-109 | An error with a code is a provider error carrying that code. Any other error is a custom error carrying its message or the fallback. The data is never empty. |
| AuthApi.RegistrationProblem | src/store/api/authApi.ts:37-43 | Registration input passes exactly when both fields are filled and the password has at least six characters. An empty field is reported before a short password. |
| AuthApi.LoginProblem | src/store/api/authApi.ts:122-128 | Login input passes exactly when both fields are filled and the email `includes` `@`. An empty field is reported before a missing `@`. |
| AuthApi.RegisterUser | src/store/api/authApi.ts:35-111 | The provider is called with the trimmed email exactly when the input checks pass. Registration succeeds exactly when account creation, the token request and the backend call all succeed, with an ok response. A success carries the provider's user and the backend's record. Otherwise the first failing step decides the error: a failed check, a thrown step, or a non-ok status as "Backend registration failed: " and the status, each tagged by `TagError` with fallback "Registration failed". |
| AuthApi.LoginUser | src/store/api/authApi.ts:120-169 | The provider is called with the trimmed email exactly when the login checks pass. A failed check is a custom error with its message. After the checks, login succeeds exactly when sign-in does, carrying the user and no backend record. A thrown sign-in is tagged by `TagError` with fallback "Login failed". |
| AuthApi.LogoutUser | src/store/api/authApi.ts:187-202 | Logout fails exactly when sign-out throws. The failure is always a custom error, whatever the code, with no message. Its data is the error's message, or "Logout failed" when that is empty. |
| AuthApi.CurrentUserQuery | src/store/api/authApi.ts:175-182 | The current-user query makes a request exactly when someone is signed in. |
| AuthApi.MutationsRefreshCurrentUser | src/store/api/authApi.ts:112-201 | Every mutation invalidates the `User` tag that the current-user query provides. |
| AuthApi.RegisterRequiresBothFields | src/store/api/authApi.ts:37-39 | An empty field gives the "required" custom error, and the provider is never called. |
| AuthApi.RegisterRejectsShortPassword | src/store/api/authApi.ts:41-43 | Once both fields are filled, a password under six characters is refused before the provider. |
| AuthApi.BackendStatusReported | src/store/api/authApi.ts:71-80 | A non-ok backend status `s` gives "Backend registration failed: s", and distinct statuses give distinct results. |
| AuthApi.LoginChecksInOrder | src/store/api/authApi.ts:122-128 | Login rejects an empty field first, and only then an email without `@`. |
| AuthApi.LoginSuccessHasNoUserData | src/store/api/authApi.ts:141-146 | A successful login carries the provider's user and no backend record. |
| LoginPage.FailureMessage | src/pages/Login.tsx:51-59 | A provider error shows the classifier's message for its code. Any other error shows its data if non-empty, else its message if non-empty, else "Login failed. Please try again.". The message is never empty. |
| LoginPage.GetErrorMessage | src/pages/Login.tsx:64-75 | The form's own error comes first, then a string hook error, then the hook error's data, else nothing. |
| LoginPage.SubmitOutcome | src/pages/Login.tsx:22-61 | The mutation is called, with the trimmed email and the password, exactly when both trimmed fields are non-empty and the email has an `@`. A blank field gives exactly the fill message, and a missing `@` after that exactly the email message; neither toasts nor navigates. On success the page toasts "Login successful!" and goes to `/dashboard`. On failure it shows `FailureMessage` of the error inline and as an error toast, and does not navigate. |
| LoginPage.HookError | src/pages/Login.tsx:19 | The mutation hook holds no error after a success. After a failure it holds the rejected record, with its data. |
| LoginPage.LoginForm.constructor | src/pages/Login.tsx:15-20 | The form starts with empty fields and no errors. |
| LoginPage.LoginForm.EditEmail | src/pages/Login.tsx:102-105 | Editing the email stores it, clears the form's own error, and keeps everything else. |
| LoginPage.LoginForm.EditPassword | src/pages/Login.tsx:117-120 | Editing the password stores it, clears the form's own error, and keeps everything else. |
| LoginPage.LoginForm.Submit | src/pages/Login.tsx:22-61 | The form's new error, hook error, toasts and location are those of `SubmitOutcome`. The mutation receives the trimmed email and the password exactly when it is called. The fields are kept. |
| LoginPage.BlankFieldsStopSubmission | src/pages/Login.tsx:26-29 | An all-whitespace email or password gives "Please fill in all fields" with no mutation call. |
| LoginPage.EmailCheckedAfterFill | src/pages/Login.tsx:31-34 | The `@` check fails only after the fill check has passed. |
| LoginPage.FormChecksCoverApiChecks | src/pages/Login.tsx:26-42 | A submission that reaches the mutation always passes the mutation's own checks, so the provider gets the email trimmed once. |
| LoginPage.ProviderErrorShowsClassifiedMessage | src/pages/Login.tsx:51-54 | A provider error shows the classified message both inline and as an error toast, and there is no navigation. |
| LoginPage.SuccessfulLoginExample | src/pages/Login.tsx:39-47 | `a@b.com` with `secret1`, against an accepting provider, toasts success and goes to the dashboard. |
| Pricing.RoundHalfUp | src/pages/Index.tsx:27 | `Math.round` of a non-negative rational is the whole number within a half of it, with halves going up. |
| Pricing.GetPrice | src/pages/Index.tsx:23-30 | A free plan costs nothing, and monthly billing is the monthly price. The yearly price is the whole amount nearest to `10.2 m`, twelve months at 85%. |
| Pricing.YearlyClosedForm | src/pages/Index.tsx:27 | The yearly price of `m` is `(1020 m + 50) div 100`. |
| Pricing.YearlyNeverTies | src/pages/Index.tsx:27 | `10.2 m` never has a fractional part of one half, so the rounding rule cannot matter. |
| Pricing.YearlyMonotone | src/pages/Index.tsx:27 | The yearly price never falls when the monthly price rises. |
| Pricing.YearlyIsDiscounted | src/pages/Index.tsx:26-27 | For a paid plan, the yearly price is below twelve months and at least ten. |
| Pricing.MonthlyIsIdentity | src/pages/Index.tsx:23-30 | Monthly billing shows the monthly price, and a free plan is free in both periods. |
| Pricing.PlanPrices | src/pages/Index.tsx:11-16 | The pro plan costs 194 and the enterprise plan 1010 billed yearly. |
| Pricing.GroupThousandsRoundTrip | src/pages/Index.tsx:20 | Thousands grouping loses no digit: removing the separators gives the digits back. |
| Pricing.GroupThousandsLength | src/pages/Index.tsx:20 | Grouping adds one separator per full group of three digits before the last group. |
| Pricing.GroupThousandsGrouped | src/pages/Index.tsx:20 | Grouping puts a comma exactly four, eight, twelve ... places from the end, and the first group is never empty. |
| Pricing.FormatPrice | src/pages/Index.tsx:18-21 | Without its separators, the formatted price is exactly the amount's decimal rendering, so it has no leading zero and no stray character. The separators stand where the en-US locale puts them. |
| Pricing.FormatPriceReadsBack | src/pages/Index.tsx:18-21 | Reading the formatted price's digits back gives the amount. |
| Pricing.GetPriceDisplay | src/pages/Index.tsx:32-40 | The label is `$`, then the price grouped in thousands, then the period's suffix. Without separators, the price is exactly the decimal rendering of `getPrice`. |
| Pricing.ProYearlyAmount | src/pages/Index.tsx:32-40 | The pro plan billed yearly shows the amount `194`. |
| Pricing.EnterpriseYearlyAmount | src/pages/Index.tsx:32-40 | The enterprise plan billed yearly shows the amount with its thousands separator, `1,010`. |
| Pricing.MonthlyLabels | src/pages/Index.tsx:32-40 | The pro plan billed monthly reads `$19/month`, and the free plan billed yearly reads `$0/year`. |
| Pricing.PricingPage.constructor | src/pages/Index.tsx:9 | Billing starts monthly. |
| Pricing.PricingPage.SelectMonthly | src/pages/Index.tsx:447 | The monthly button sets the period to monthly. |
| Pricing.PricingPage.SelectYearly | src/pages/Index.tsx:457 | The yearly button sets the period to yearly. |
| Pricing.PricingPage.PriceLabel | src/pages/Index.tsx:32-40 | The label shown is that of the current period. |
| RouteGuards.ProtectedRoute | src/pages/ProtectedRoute.tsx:102-114 | It shows the skeleton exactly while loading, and redirects to `/login` with replace exactly when loaded without a user. It renders the page exactly when loaded with a user. |
| RouteGuards.PublicRoute | src/pages/PublicRoute.tsx:72-89 | It shows its skeleton exactly while loading. A loaded user is redirected to `redirectTo`, default `/dashboard`, with replace. The page renders exactly when loaded without a user. |
| RouteGuards.GuardsPartitionSignedInState | src/pages/PublicRoute.tsx:83-88 | Once loaded, exactly one of the two guards renders its page. |
| RouteGuards.LoadingShowsNeither | src/pages/ProtectedRoute.tsx:105-107 | While loading, both guards show their skeletons. |
| RouteGuards.SignedOutRedirectIsShown | src/pages/ProtectedRoute.tsx:109-111 | A signed-out visitor sent to `/login` is let through by the public guard. |
| Settings.SettingsPage.constructor | src/pages/Settings.tsx:15-19 | Notifications start as email on, push off, WhatsApp on. |
| Settings.SettingsPage.SetEmail | src/pages/Settings.tsx:117 | The email switch sets `email` and keeps `push` and `whatsapp`. |
| Settings.SettingsPage.SetPush | src/pages/Settings.tsx:128 | The push switch sets `push` and keeps `email` and `whatsapp`. |
| Settings.SettingsPage.SetWhatsapp | src/pages/Settings.tsx:139 | The WhatsApp switch sets `whatsapp` and keeps `email` and `push`. |
| Settings.Split | src/pages/Settings.tsx:248 | `split(' ')` gives at least one piece, and no piece contains a space. |
| Settings.JoinFirstChars | src/pages/Settings.tsx:248 | `.map(n => n[0]).join('')` gives at most one character per piece, and no space when no piece holds one. |
| Settings.Initials | src/pages/Settings.tsx:248 | The initials hold at most one character per piece, and never a space. |
| Settings.SplitJoinRoundTrip | src/pages/Settings.tsx:248 | Joining the pieces with spaces gives the name back. |
| Settings.SplitWordStarts | src/pages/Settings.tsx:248 | The pieces' first characters are exactly the characters that start the name or follow a space, and are not spaces. |
| Settings.InitialsAreWordStarts | src/pages/Settings.tsx:248 | The initials equal the word starts read left to right. They contain no space, so empty pieces contribute nothing. |
| Settings.InitialsAcrossSpace | src/pages/Settings.tsx:248 | The initials of `a + " " + b` are the initials of `a` followed by those of `b`. |
| Settings.InitialOfWord | src/pages/Settings.tsx:248 | A single non-empty word gives its first character. |
| Settings.TwoWordInitials | src/pages/Settings.tsx:248 | Two words separated by one space give their two first characters, in order (so "Sarah Chen" gives "SC"). |
| Settings.DoubledSpaceInitials | src/pages/Settings.tsx:248 | Two words separated by a doubled space still give just their two first characters: the empty piece adds nothing. |
| Settings.RoleBadge | src/pages/Settings.tsx:257 | The badge is the default variant iff the role is `Admin`. |
| Settings.ShowsRemoveButton | src/pages/Settings.tsx:260-262 | The Remove button shows iff the role is not `Admin`. |
| Settings.RemovableIffSecondary | src/pages/Settings.tsx:257-262 | A member can be removed exactly when their badge is the secondary variant. |
| Text.OrElse | src/store/api/authApi.ts:107 | A falsy string gives way to its fallback: the result is the string unless it is empty. |
| Text.Trim | src/pages/Login.tsx:26 | `trim` never lengthens a string, and its result neither starts nor ends with whitespace. |
| Text.TrimEmptyIff | src/pages/Login.tsx:26 | `!s.trim()` holds exactly when `s` is all whitespace. |
| Text.TrimIdempotent | src/store/api/authApi.ts:134 | Trimming an already trimmed email changes nothing. |
| Text.TrimKeepsAt | src/pages/Login.tsx:31 | Trimming neither adds nor removes an `@`. |
| Text.Contains | src/pages/Login.tsx:31 | `includes` finds a prefix, and never a substring longer than the string. |
| Text.ContainsChar | src/pages/WhatsappBot.tsx:158 | For a single character, `includes` is membership. |
| Text.ContainsOccurs | src/lib/firebaseErrorUtils.ts:104 | `includes` finds a position where the substring occurs. |
| Text.OccursAtContains | src/lib/firebaseErrorUtils.ts:104 | A substring occurring at some position is found by `includes`. |
| Text.NatToString | src/store/api/authApi.ts:80 | A number renders as non-empty decimal digits with no leading zero. |
| Text.NatToStringRoundTrip | src/store/api/authApi.ts:80 | Reading the rendered digits back gives the number. |
| Text.NatToStringInjective | src/store/api/authApi.ts:80 | Distinct numbers render differently. |
| Text.IntToString | src/pages/WhatsappBot.tsx:83 | An integer renders with a leading minus sign exactly when it is negative. |

## Findings

| source | as written | input that shows it | evidently intended | confidence | as-written member | corrected member |
|---|---|---|---|---|---|---|
| src/pages/WhatsappBot.tsx:121-137 | The 15-second tick's guard reads `debugInfo` from the first render, because the effect has empty dependencies. The guard is therefore always true, and the tick requests a QR code forever. | A `whatsapp:qr` event with QR data `2@abc`, then a tick: `qrAvailable` is true, yet the tick requests again. | Request only while no QR code is available and the bot is not connected, as the comment says. | high; not executed | WhatsappBot.AutoTickAsWritten (exhibited by WhatsappBot.StaleTickRequestsDespiteQr, WhatsappBot.StaleTicksNeverSettle) | WhatsappBot.AutoTick (proved by WhatsappBot.TicksIdleOnceQrArrived, WhatsappBot.QrEventStopsTicks, WhatsappBot.ConnectedBotIsNotAskedForQr) |

## Left out

- The transport is not modelled: the socket.io connection, `fetch`, the identity-provider SDK and `response.json()`. What each delivers is an input. A reply that is not valid JSON is a failed request carrying its error's message.
- Timers are not modelled as time. The 15-second interval, the first status check after one second, and the 3- and 5-second follow-ups are explicit calls, in an order the caller chooses. So is the cleanup on unmount (`clearInterval`, `socket.disconnect`).
- Interleaving is not modelled. Each async handler runs as one step, from its first log entry to its reply, so events that arrive while a request is pending are not interleaved. Likewise, in the request wrapper, concurrent refreshes are not modelled.
- `window.confirm` is a boolean input.
- `encodeURIComponent` is an input: its result, or the message of the error it throws.
- The generate-QR follow-up tests `qrAvailable` as captured when the button was clicked; that value is an input.
- Log entries carry only text and kind. The `Date.now()` id and the `toLocaleTimeString` timestamp are not modelled. `console` output is not modelled.
- JSX rendering is not modelled: class names, the skeleton layouts, the status banner's colours and the QR image's `onError` fallback to the backup link.
- Dynamic-typing cases are left out:
  - a non-string error `code`;
  - a socket payload with missing fields (for example `undefined` instructions, or a message rendered as "undefined");
  - a successful QR reply without `qr`, where `qrData.length` throws outside `displayQRCode`'s `try`.
- Settings.Initials: takes the first character of each piece. JavaScript's `n[0]` takes the first UTF-16 code unit, so for a name that starts with a character outside the Basic Multilingual Plane, the source shows half a surrogate pair where the model shows the whole character.
- WhatsappBot.QrCodeFor: the length is the number of characters, not UTF-16 code units.
- AuthApi.RegisterUser: the password length check counts characters, not UTF-16 code units.
- WhatsappBot.OnBotStatus: the uptime is given in whole seconds, so the model does not show `Math.floor` acting on a fractional value.
- Pricing.FormatPrice: digits are grouped as the en-US locale does; other locales' separators are not modelled.
- The other screens that show initials use the same expression as the settings page; it is modelled once, as `Settings.Initials`.
- These files are not part of this model: `src/services/authService.ts`, `src/context/AuthContext.tsx`, the widgets under `src/components/`, `src/main.tsx`, and the mock data of `src/pages/Dashboard.tsx` and `src/pages/Analytics.tsx`. The guards take `(loading, currentUser)` as inputs instead of the auth context.
