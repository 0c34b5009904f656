# Seat-Booking-App client rules in Dafny

This project models the rule logic inside the React client of the
Seat-Booking-App. That client is a game-seat booking site. An admin creates
games with free and paid seats, approves join requests, watches bookings and
ends games. A user registers, asks to join a game, picks a seat and pays for
it. Underneath the markup, each page handler is a small state machine. It reads
the form and the answer of a server call, then updates the page state, the
browser's `localStorage` and the route. Those handlers are what this project
models.

Layout (one module per source file, plus a shared one):

- `common.dfy`, module `Common`. Holds what the pages share:
  - `Option`;
  - `Reply`: a server answer with status and data, or `NoResponse` when the
    helper threw or returned nothing;
  - `Route`: the navigation targets;
  - the server's game, seat and join-request records;
  - occupied/free seat counts;
  - JavaScript's `\s` and `\d` character classes;
  - decimal spelling;
  - the `LocalStorage` class (a string map changed in place).
- `create_game.dfy`, module `CreateGame`. The admin's game form, as the class
  `GameForm`. It covers the seat count, the free/paid split, the checkbox quota,
  prices and gifts, the ordered validation and the submitted payload.
- `seat_selection.dfy`, module `SeatSelection`. The user's seat picker, as the
  class `SeatSelectionPage`. It covers the seat list, the single selection, the
  refresh, the test booking and the move to payment.
- `payment_gateway.dfy`, module `PaymentGateway`. It covers:
  - card-number and expiry formatting, with the regular expressions written
    out as sequence functions;
  - card validation;
  - the payment → seat-booking chain (class `PaymentForm`);
  - the page's payment status (class `PaymentPage`).
- `user_auth.dfy`, module `UserAuth`. It covers the login/register checks, the
  call made, the session written and the mount redirect (class `UserAuthPage`).
- `forgot_password.dfy`, module `ForgotPassword`. The 1 → 2 → 3 step machine
  (class `ForgotPasswordPage`).
- `available_games.dfy`, module `AvailableGames`. The user's game cards: free
  seats, request-status precedence, the card action and the join outcome.
- `manage_requests.dfy`, module `ManageRequests`. The admin's request table
  (class `RequestsPage`): loading it, and approve/reject with removal by id.
- `game_control.dfy`, module `GameControl`. Seat statistics and End Game.
- `admin_dashboard.dfy`, module `AdminDashboard`. It covers the per-game counts,
  action routing, the admin check and logout.
- `view_bookings.dfy`, module `ViewBookings`. The booked-seat list (class
  `BookingsPage`).
- `seats_grid.dfy`, module `SeatsGrid`. The demo grid of row-major seat ids
  `A1..J8`, built by nested loops and proved against a row-by-row recursive
  definition of the grid.
- `route_guards.dfy`, module `RouteGuards`. The admin and user route guards.

Conventions:

- A server call is never performed. Its answer is a parameter of the handler
  that awaits it: a `Reply`, or a datatype for the payment calls.
- Toasts and alerts are not modelled. Navigation is a returned `Route`.
- A numeric text input is given already parsed, as `Blank`, `Number(n)` or
  `NotANumber`. `NotANumber` fails every comparison, so every handler ignores it.
- The "empty or number" fields are `Option<int>`.
- `x || ''` is written out. It turns 0 into empty (`CreateGame.OrEmpty`).
- Server data is assumed complete. Every field a page reads is present in the
  reply's record, so the paths where a missing nested field makes the page
  throw are not modelled (see the two lines under "Left out").
- A handler whose follow-up code throws a `TypeError` on a missing answer is
  traced to the state it leaves. For example, when the reload after a test
  booking fails, the selection is kept.
- A non-2xx answer is `NoResponse` for every helper. Every helper in
  `src/API_handler.js` catches the failure of its call. All but one log it
  and return nothing. `MakeRequestAPI` returns the caught error object, which
  has no `data` and no 2xx status, so its caller treats it like nothing.
- Each page class that keeps an invariant states it as `Valid()`, and every
  handler keeps it. `ViewBookings.BookingsPage` has none, because any list
  and loading flag are consistent. Each handler's `ensures` states the whole
  new state. The properties that follow are
  proved about the pure functions those `ensures` name.

## Model

| member | source | states |
|---|---|---|
| Common.CountOccupied | src/pages/admin/GameControl.jsx:16 | the number of occupied seats never exceeds the number of seats |
| Common.CountFree | src/pages/user/AvailableGames.jsx:21 | the number of free seats never exceeds the number of seats |
| Common.OccupiedPlusFree | src/pages/admin/GameControl.jsx:16-18 | occupied and free seats together are exactly the seat list |
| Common.Decimal | src/components/Seats/Seats.jsx:15 | a column's decimal spelling is non-empty, all digits, and has no leading zero |
| Common.DecimalRoundTrip | src/components/Seats/Seats.jsx:15 | reading the spelling back gives the number, so different columns are spelled differently |
| Common.LookupAfterWrite | src/components/ProtectedAdminRoute.jsx:5-6 | a `getItem` after `setItem(k, v)` reads `v` for `k`; after `removeItem(k)` it reads null for `k`; every other key reads what it read before |
| Common.LocalStorage.SetItem | src/pages/user/UserAuth.jsx:50-52 | the key now maps to the value (a `getItem` reads it back), and every other key is unchanged |
| Common.LocalStorage.RemoveItem | src/pages/admin/AdminDashboard.jsx:93-95 | only that key is removed (a `getItem` reads null for it) |
| CreateGame.OrEmpty | src/pages/admin/CreateGame.jsx:106 | the `''` fallback of an or-expression is empty exactly for empty or 0, and otherwise keeps the number |
| CreateGame.FreshSeats | src/pages/admin/CreateGame.jsx:30-35 | a positive n gives n seats numbered 1..n, unpaid, with empty price and gift; anything else gives none |
| CreateGame.ResetPricing | src/pages/admin/CreateGame.jsx:55-59 | the same seats, all unpaid with empty price; numbers and gifts are kept |
| CreateGame.PriceAll | src/pages/admin/CreateGame.jsx:104-107 | paid seats get the price (0 stored as empty) and unpaid seats get an empty price; nothing else changes |
| CreateGame.MarkSeat | src/pages/admin/CreateGame.jsx:86-95 | the checkbox edit sets the seat's flag, gives it the universal price (0 stored as empty) when paid and an empty price when unpaid, keeps its number and gift, and changes no other seat |
| CreateGame.PriceSeat | src/pages/admin/CreateGame.jsx:112-122 | the per-seat price edit changes only that seat's price, never storing 0 |
| CreateGame.GiftSeat | src/pages/admin/CreateGame.jsx:352-360 | the gift edit changes only that seat's gift |
| CreateGame.CountPaid | src/pages/admin/CreateGame.jsx:167 | the paid count never exceeds the number of seats |
| CreateGame.CountPaidOthers | src/pages/admin/CreateGame.jsx:78 | the count of paid seats other than the index never exceeds the number of seats |
| CreateGame.CountPaidSplit | src/pages/admin/CreateGame.jsx:78 | the paid count is the other paid seats plus the indexed seat when it is paid |
| CreateGame.CountPaidOthersUpdate | src/pages/admin/CreateGame.jsx:86-95 | rewriting the indexed seat leaves the other seats' paid count unchanged |
| CreateGame.CountPaidAfterUpdate | src/pages/admin/CreateGame.jsx:86-95 | after rewriting the indexed seat, the paid count is the others plus the new flag |
| CreateGame.ResetLeavesNoPaidSeat | src/pages/admin/CreateGame.jsx:55-59 | after a free-seat edit no seat is paid |
| CreateGame.PricingKeepsPaidCount | src/pages/admin/CreateGame.jsx:98-122 | the universal-price, per-seat-price and gift edits never change the paid count |
| CreateGame.MarkKeepsQuota | src/pages/admin/CreateGame.jsx:77-96 | an accepted checkbox edit keeps the paid count within `paidSeats` |
| CreateGame.CheckboxDisabled | src/pages/admin/CreateGame.jsx:334-337 | a ticked box is disabled only when no paid seats are configured; an unticked box is enabled only while fewer seats are paid than `paidSeats` |
| CreateGame.CheckboxMatchesQuota | src/pages/admin/CreateGame.jsx:334-337 | for an unpaid seat, the checkbox is disabled exactly when ticking it would be refused |
| CreateGame.ValidationErrors | src/pages/admin/CreateGame.jsx:128-176 | the error list is empty iff the name is not blank, the total is set and positive, the counts are not negative and add up to the total, every paid seat has a price, and the paid selection matches `paidSeats` |
| CreateGame.ErrorsInFixedOrder | src/pages/admin/CreateGame.jsx:128-170 | the messages always appear in the fixed order, each at most once |
| CreateGame.NoNegativeCountsWhenWellFormed | src/pages/admin/CreateGame.jsx:148-150 | a form kept by the handlers never reports negative counts |
| CreateGame.ZeroPriceBlocksSubmission | src/pages/admin/CreateGame.jsx:158-164 | a paid seat priced 0 is stored as empty, so submission reports a paid seat without a price |
| CreateGame.PaidSelectionMismatchReported | src/pages/admin/CreateGame.jsx:166-170 | more or fewer seats ticked than `paidSeats` is reported, and blocks submission |
| CreateGame.Payload | src/pages/admin/CreateGame.jsx:179-186 | the payload keeps every field and the seat count and order; price is 0 for unpaid seats and the price or 0 for paid ones; gift is '' when absent |
| CreateGame.SubmittedGameMeetsInvariants | src/pages/admin/CreateGame.jsx:128-186 | a validated game from a well-kept form has 1..100 seats numbered in order, free + paid = total, `paidSeats` paid seats at positive prices, and free seats at 0 |
| CreateGame.MarkAddsOne | src/pages/admin/CreateGame.jsx:77-96 | ticking an unpaid seat is weighed against all the paid seats and raises the paid count by one |
| CreateGame.TickFirst | src/pages/admin/CreateGame.jsx:77-96 | ticking the first k seats in turn keeps the number of seats |
| CreateGame.TickFirstFacts | src/pages/admin/CreateGame.jsx:77-96 | from no paid seat, ticking the first k seats makes exactly those k seats paid, at the universal price, and leaves the rest as they were |
| CreateGame.QuotaTicks | src/pages/admin/CreateGame.jsx:77-96 | with `paidSeats` q and no seat paid, ticking seats in order is accepted q times at the universal price, and the next tick is refused |
| CreateGame.GameForm.constructor | src/pages/admin/CreateGame.jsx:8-19 | empty name, counts, seats and universal price |
| CreateGame.GameForm.SetGameName | src/pages/admin/CreateGame.jsx:232 | only the name changes |
| CreateGame.GameForm.HandleNumberOfSeatsChange | src/pages/admin/CreateGame.jsx:22-39 | an accepted total (blank or 0..100) regenerates the seats and clears the counts and the universal price, keeping the name; other input changes nothing |
| CreateGame.GameForm.HandleFreeSeatsChange | src/pages/admin/CreateGame.jsx:41-62 | an accepted count f sets paid = total − f and resets every seat's pricing; other input changes nothing |
| CreateGame.GameForm.HandlePaidSeatsChange | src/pages/admin/CreateGame.jsx:64-75 | an accepted count changes only `paidSeats`; free count and seats are untouched |
| CreateGame.GameForm.HandleSeatStatusChange | src/pages/admin/CreateGame.jsx:77-96 | refused exactly when marking paid would exceed the quota, and then nothing changes; otherwise only the indexed seat changes |
| CreateGame.GameForm.HandleUniversalPaidPriceChange | src/pages/admin/CreateGame.jsx:98-110 | a blank or non-negative price is stored and applied to the paid seats; anything else changes nothing |
| CreateGame.GameForm.HandleSeatPriceChange | src/pages/admin/CreateGame.jsx:112-122 | a blank or non-negative price changes only that seat's price (0 stored as empty) |
| CreateGame.GameForm.HandleGiftChange | src/pages/admin/CreateGame.jsx:355-360 | only that seat's gift changes |
| CreateGame.GameForm.CollectErrors | src/pages/admin/CreateGame.jsx:128-170 | the list pushed check by check is the form's validation error list, so it is empty iff the game may be submitted |
| CreateGame.GameForm.HandleSubmit | src/pages/admin/CreateGame.jsx:124-200 | the payload is sent exactly when the ordered error list is empty; the dashboard follows a server answer; loading ends |
| SeatSelection.Project | src/pages/user/SeatSelection.jsx:35-39 | one seat per server seat in order, with id = seat number, booked iff occupied, never selected, and the price copied |
| SeatSelection.FindSeat | src/pages/user/SeatSelection.jsx:57 | a found seat is in the list with that id; none is found only when no seat has it |
| SeatSelection.FindSeatIsFirst | src/pages/user/SeatSelection.jsx:57 | `find` returns the first seat carrying the id: a seat no earlier seat shares its id with is the one found |
| SeatSelection.SeatColor | src/pages/user/SeatSelection.jsx:106-115 | red exactly for a booked seat, yellow exactly for a selected one, green exactly for an available one |
| SeatSelection.FindByPosition | src/pages/user/SeatSelection.jsx:22-26 | when ids are positions counted from 1, the click's positional check and the booking's lookup by id reach the same seat |
| SeatSelection.NeverYellow | src/pages/user/SeatSelection.jsx:107-116 | the 'selected' colour is never used for a seat the page holds |
| SeatSelection.SeatSelectionPage.constructor | src/pages/user/SeatSelection.jsx:12-20 | 20 seats with ids 1..20, available at 100, and nothing selected |
| SeatSelection.SeatSelectionPage.HandleSeatClick | src/pages/user/SeatSelection.jsx:22-26 | only an available seat at position id − 1 becomes the selection; seats never change |
| SeatSelection.SeatSelectionPage.Refresh | src/pages/user/SeatSelection.jsx:28-50 | a 200 reply replaces the seats by their projection; anything else keeps them; the selection is untouched |
| SeatSelection.SeatSelectionPage.HandleTestBooking | src/pages/user/SeatSelection.jsx:51-88 | no selection, a missing seat or a booked seat makes no call and changes nothing; after a 200, seats are reloaded and the selection cleared; any other outcome changes nothing |
| SeatSelection.SeatSelectionPage.HandleBookSeat | src/pages/user/SeatSelection.jsx:90-105 | goes to /payment/seat/game exactly when a seat is selected, found and not booked |
| PaymentGateway.StripWhitespace | src/pages/user/PaymentGateway.jsx:35 | the result is no longer than the input |
| PaymentGateway.StripLeavesNoWhitespace | src/pages/user/PaymentGateway.jsx:35 | no whitespace character survives |
| PaymentGateway.DigitsOnly | src/pages/user/PaymentGateway.jsx:39 | the result is no longer than the input |
| PaymentGateway.DigitsOnlyDigits | src/pages/user/PaymentGateway.jsx:39 | only digits survive |
| PaymentGateway.RemoveSlashes | src/pages/user/PaymentGateway.jsx:68 | the result is no longer than the input |
| PaymentGateway.FormatExpiry | src/pages/user/PaymentGateway.jsx:37-41 | the expiry field never holds more than five characters, and fewer than two typed digits are stored unchanged |
| PaymentGateway.ExpiryLayout | src/pages/user/PaymentGateway.jsx:37-41 | the expiry field holds at most 5 characters; '/' at index 2 exactly when two digits were typed; digits elsewhere; without the slash, the first (up to four) digits typed |
| PaymentGateway.ExpiryLayoutLong | src/pages/user/PaymentGateway.jsx:39-41 | from two digits on, the field is the first two digits, a slash, and up to two more digits |
| PaymentGateway.IsMMYY | src/pages/user/PaymentGateway.jsx:20 | an accepted expiry has five characters with the slash at index 2, and four digits once the slash is removed |
| PaymentGateway.ExpiryAcceptedIffFourDigits | src/pages/user/PaymentGateway.jsx:20 | a formatted expiry matches MM/YY exactly when at least four digits were typed |
| PaymentGateway.FormatCardNumber | src/pages/user/PaymentGateway.jsx:35 | the formatted number without whitespace equals the typed value without whitespace, and that is what is sent |
| PaymentGateway.GroupLayout | src/pages/user/PaymentGateway.jsx:35 | grouping digits puts a space at every fifth position and the digits, in order, everywhere else |
| PaymentGateway.TrimGroupedComplete | src/pages/user/PaymentGateway.jsx:35 | when the digits end on a complete group of four, trimming removes exactly the trailing space |
| PaymentGateway.TrimGroupedPartial | src/pages/user/PaymentGateway.jsx:35 | otherwise the grouped digits have nothing to trim |
| PaymentGateway.CardNumberLayout | src/pages/user/PaymentGateway.jsx:35 | a formatted digit string has one space after each inner group of four, no leading or trailing space, and length n + (n − 1)/4 for n digits |
| PaymentGateway.FormattedNumberPassesFrom13 | src/pages/user/PaymentGateway.jsx:17 | the 16-character check counts the spaces, so a formatted number passes from 13 digits on |
| PaymentGateway.ValidateCardDetails | src/pages/user/PaymentGateway.jsx:16-27 | no message iff all three checks pass; otherwise the first failing one in the order number, expiry, CVC |
| PaymentGateway.PaymentForm.constructor | src/pages/user/PaymentGateway.jsx:8-14 | empty fields, no error, not processing |
| PaymentGateway.PaymentForm.HandleInputChange | src/pages/user/PaymentGateway.jsx:29-48 | the number and expiry are stored formatted and the CVC as typed; the other fields are kept |
| PaymentGateway.PaymentForm.HandleSubmit | src/pages/user/PaymentGateway.jsx:50-106 | no call on invalid cards; booking only after payment status 'success'; success iff the message is exactly "Seat booked successfully"; every other outcome sets its error; processing ends false |
| PaymentGateway.NextStatus | src/pages/user/PaymentGateway.jsx:215-217 | one event gives success exactly after a reported success or from success; a retry (the button at line 315) gives pending from pending or failed; failed is never entered |
| PaymentGateway.StatusNeverFails | src/pages/user/PaymentGateway.jsx:185-220 | from pending, the status never becomes 'failed', and becomes 'success' exactly when the form reported a success |
| PaymentGateway.PaymentPage.constructor | src/pages/user/PaymentGateway.jsx:170-185 | loading, pending, no client secret, price 0 |
| PaymentGateway.PaymentPage.InitPaymentIntent | src/pages/user/PaymentGateway.jsx:187-213 | an answer stores the client secret and amount; a failure stores the message and hides the form; loading ends; after an answer on an error-free page the form shows exactly when the status is pending and the secret is non-empty |
| PaymentGateway.PaymentPage.FormShown | src/pages/user/PaymentGateway.jsx:222-281 | the card form is shown exactly when there is no error, loading is over, the status is pending and the client secret is a non-empty string |
| PaymentGateway.PaymentPage.HandlePaymentSuccess | src/pages/user/PaymentGateway.jsx:215-220 | the status becomes 'success' and the redirect goes to the game's leaderboard |
| UserAuth.CheckForm | src/pages/user/UserAuth.jsx:31-44 | accepted iff the password is set, the username is set in login mode, and in register mode the confirmation matches; mismatch is reported first; "confirm your password" never fires |
| UserAuth.RegisterIgnoresUsername | src/pages/user/UserAuth.jsx:36-39 | because `&&` binds tighter than the or-operator, register mode never looks at the username |
| UserAuth.LoggedInSession | src/pages/user/UserAuth.jsx:50-52 | a login stores token, isAdmin "false" and userId, and keeps the other keys |
| UserAuth.MountRedirect | src/pages/user/UserAuth.jsx:18-26 | a token with isAdmin "false" goes to /games, with "true" to /admin/dashboard, otherwise nowhere |
| UserAuth.RedirectsAgreeWithGuards | src/pages/user/UserAuth.jsx:18-26 | each mount redirect lands where the matching guard renders; a fresh login passes the user guard and not the admin guard |
| UserAuth.UserAuthPage.constructor | src/pages/user/UserAuth.jsx:7-15 | login mode with an empty form |
| UserAuth.UserAuthPage.ChangeField | src/pages/user/UserAuth.jsx:107-152 | only the edited field changes |
| UserAuth.UserAuthPage.ToggleMode | src/pages/user/UserAuth.jsx:170 | the mode flips |
| UserAuth.UserAuthPage.HandleSubmit | src/pages/user/UserAuth.jsx:28-82 | a rejected form makes no call; otherwise exactly one of login or register, by mode; a 200 login writes the session and goes to /games; a 201 register switches to login mode |
| ForgotPassword.NextStep | src/pages/user/ForgotPassword.jsx:18-51 | a submit keeps the step or moves it one on |
| ForgotPassword.StepCounts | src/pages/user/ForgotPassword.jsx:10-51 | after any submits, the step is the start plus the number of 200 answers, capped at 3, so it never decreases or skips |
| ForgotPassword.ForgotPasswordPage.constructor | src/pages/user/ForgotPassword.jsx:9-15 | step 1 with empty fields |
| ForgotPassword.ForgotPasswordPage.ChangeField | src/pages/user/ForgotPassword.jsx:99-183 | only the edited field changes |
| ForgotPassword.ForgotPasswordPage.HandleEmailSubmit | src/pages/user/ForgotPassword.jsx:18-33 | 1 → 2 exactly on a 200; loading ends false |
| ForgotPassword.ForgotPasswordPage.HandleOTPSubmit | src/pages/user/ForgotPassword.jsx:35-51 | on a 200, stores the temporary token and moves 2 → 3; otherwise changes nothing |
| ForgotPassword.ForgotPasswordPage.HandlePasswordReset | src/pages/user/ForgotPassword.jsx:53-72 | no call when the passwords differ; otherwise sends the stored temporary token; /login only on a 200 |
| AvailableGames.FindRequest | src/pages/user/AvailableGames.jsx:24 | a found request belongs to the user; none is found only when the user has none |
| AvailableGames.FindRequestIsFirst | src/pages/user/AvailableGames.jsx:24 | the request found is the user's first in list order |
| AvailableGames.RequestStatusOf | src/pages/user/AvailableGames.jsx:23-29 | 'rejected' iff the user's request is rejected; else 'approved' iff the user is approved; else none |
| AvailableGames.RejectionOverridesApproval | src/pages/user/AvailableGames.jsx:23-29 | a rejected request wins over membership of the approved users |
| AvailableGames.Card | src/pages/user/AvailableGames.jsx:18-31 | availableSeats is the number of unoccupied seats, at most the seat count; the other fields are copied |
| AvailableGames.Cards | src/pages/user/AvailableGames.jsx:17-32 | one card per game, in reply order |
| AvailableGames.LoadGames | src/pages/user/AvailableGames.jsx:12-40 | a 200 reply replaces the list; anything else keeps it |
| AvailableGames.Action | src/pages/user/AvailableGames.jsx:118-149 | priority ended → leaderboard, approved → seat picker, rejected → label, else join button, disabled iff no free seat |
| AvailableGames.JoinDisabledIffFull | src/pages/user/AvailableGames.jsx:137-148 | a joinable game's button is disabled exactly when every seat is occupied |
| AvailableGames.Logout | src/pages/user/AvailableGames.jsx:82-87 | removes only userId and token, keeps everything else including isAdmin, and goes to / |
| AvailableGames.LogoutKeepsIsAdmin | src/pages/user/AvailableGames.jsx:83-85 | after this logout isAdmin is still stored, yet both guards redirect because the token is gone |
| AvailableGames.JoinOutcomeOf | src/pages/user/AvailableGames.jsx:42-51 | success iff the reply status is 201 |
| ManageRequests.RemoveId | src/pages/admin/ManageRequests.jsx:21 | the list never grows |
| ManageRequests.RemoveIdMembers | src/pages/admin/ManageRequests.jsx:21 | exactly the rows with another id remain |
| ManageRequests.RemoveIdAppend | src/pages/admin/ManageRequests.jsx:21 | removal works piecewise, so the kept rows stay in order |
| ManageRequests.RemoveAbsentId | src/pages/admin/ManageRequests.jsx:21 | a list without that id is unchanged |
| ManageRequests.RemoveIdCount | src/pages/admin/ManageRequests.jsx:21 | exactly the rows carrying that id are removed |
| ManageRequests.Rows | src/pages/admin/ManageRequests.jsx:57-64 | one row per pending request, in order, with its id, user name, status and the game's name |
| ManageRequests.ActionsOffered | src/pages/admin/ManageRequests.jsx:132 | the approve and reject buttons never appear on an approved or rejected request |
| ManageRequests.ActionsOfferedOnPending | src/pages/admin/ManageRequests.jsx:57-64 | a fetched request's row offers the buttons exactly when its status is 'pending' |
| ManageRequests.ActionsGoneAfterUpdate | src/pages/admin/ManageRequests.jsx:21 | after a 200 answer no row left offers buttons for that id, and every other row that offered them still does |
| ManageRequests.RequestsPage.constructor | src/pages/admin/ManageRequests.jsx:11-14 | no requests and the update flag clear |
| ManageRequests.RequestsPage.Load | src/pages/admin/ManageRequests.jsx:54-74 | a reply with requests gives their rows; no reply or no requests gives an empty list |
| ManageRequests.RequestsPage.SetRequestStatus | src/pages/admin/ManageRequests.jsx:17-52 | sends (id, status); a 200 removes that id and toggles update; anything else changes nothing |
| ManageRequests.RequestsPage.HandleApprove | src/pages/admin/ManageRequests.jsx:17-33 | sends 'approved' for the id, with the same list effects |
| ManageRequests.RequestsPage.HandleReject | src/pages/admin/ManageRequests.jsx:35-52 | sends 'rejected' for the id, with the same list effects |
| GameControl.Stats | src/pages/admin/GameControl.jsx:16-24 | total is the seat-list length, booked is the occupied count, and remaining = total − booked, at least 0 |
| GameControl.LoadStats | src/pages/admin/GameControl.jsx:12-31 | a 200 reply sets the statistics; anything else keeps them |
| GameControl.EndGameShown | src/pages/admin/GameControl.jsx:79-92 | End Game is shown iff the status is 'active' |
| GameControl.EndGameRoute | src/pages/admin/GameControl.jsx:36-41 | the dashboard follows exactly when the end call answered |
| AdminDashboard.WithCounts | src/pages/admin/AdminDashboard.jsx:37-45 | the game is kept, plus its occupied-seat count and its pending-request count |
| AdminDashboard.LoadGames | src/pages/admin/AdminDashboard.jsx:31-54 | a non-empty reply gives one entry per game in order; an empty or missing reply leaves the list empty |
| AdminDashboard.GameActionRoute | src/pages/admin/AdminDashboard.jsx:56-70 | 'control', 'requests' and 'Leaderboard' route to their pages; any other action does nothing |
| AdminDashboard.VisibleActions | src/pages/admin/AdminDashboard.jsx:182-221 | control and requests for an active game, the leaderboard otherwise |
| AdminDashboard.VisibleActionsRoute | src/pages/admin/AdminDashboard.jsx:182-221 | every shown button routes somewhere, and to the leaderboard exactly for inactive games |
| AdminDashboard.AdminCheck | src/pages/admin/AdminDashboard.jsx:20-27 | missing user data or a non-admin role redirects to /admin |
| AdminDashboard.Logout | src/pages/admin/AdminDashboard.jsx:92-98 | removes userId, token and isAdmin, keeps everything else, and goes to /admin |
| AdminDashboard.LogoutClosesSession | src/pages/admin/AdminDashboard.jsx:92-96 | after logout both guards redirect and the stored user record is kept |
| ViewBookings.BookedRows | src/pages/admin/ViewBookings.jsx:22-29 | rows are exactly the occupied seats with a user, with seat number, user name and price copied |
| ViewBookings.BookedRowsAppend | src/pages/admin/ViewBookings.jsx:22-24 | the rows follow the seats' order |
| ViewBookings.BookedRowsBound | src/pages/admin/ViewBookings.jsx:22-24 | there are never more rows than occupied seats |
| ViewBookings.BookingsPage.constructor | src/pages/admin/ViewBookings.jsx:13-14 | loading with no rows |
| ViewBookings.BookingsPage.Load | src/pages/admin/ViewBookings.jsx:16-42 | a 200 replaces the rows; anything else keeps them; loading ends false |
| SeatsGrid.SeatId | src/components/Seats/Seats.jsx:11-15 | the id is the row letter chr(65 + row) followed by the column in decimal |
| SeatsGrid.SeatIdInjective | src/components/Seats/Seats.jsx:11-15 | different positions have different ids |
| SeatsGrid.SeatAt | src/components/Seats/Seats.jsx:18-30 | number = id, booked as drawn, and a passenger iff booked |
| SeatsGrid.GenerateSeats | src/components/Seats/Seats.jsx:8-34 | rows·cols seats in row-major order; seat row·cols + col − 1 has that position's id and draw; user iff booked |
| SeatsGrid.GridAt | src/components/Seats/Seats.jsx:8-34 | in the row-by-row grid, the seat of row r and column c sits after r full rows and carries that position's id and draw |
| SeatsGrid.GridIsGrid | src/components/Seats/Seats.jsx:8-34 | the row-by-row grid has the row-major layout: seat r·cols + c − 1 is the seat of row r, column c |
| SeatsGrid.GridSeatFacts | src/components/Seats/Seats.jsx:18-30 | every seat of a grid shows its id as its number, is booked by its own draw, and has a passenger iff booked |
| SeatsGrid.GridIdsDistinct | src/components/Seats/Seats.jsx:11-20 | all generated ids are distinct |
| SeatsGrid.Seats | src/components/Seats/Seats.jsx:5-36 | the fixed grid has 80 seats, from A1 to J8, with distinct ids |
| RouteGuards.AdminGuard | src/components/ProtectedAdminRoute.jsx:4-14 | renders iff isAdmin is exactly "true" and the token is non-empty; otherwise redirects to /admin |
| RouteGuards.UserGuard | src/components/ProtectedUserRoute.jsx:4-13 | renders iff the token is non-empty and isAdmin is not exactly "true" (a missing flag counts as a user); otherwise redirects to / |
| RouteGuards.GuardsPartitionSessions | src/components/ProtectedUserRoute.jsx:5-8 | no session passes both guards; with a token, exactly one |
| RouteGuards.NoTokenNoAccess | src/components/ProtectedAdminRoute.jsx:6-10 | without a token both guards redirect, whatever isAdmin holds |

## Left out

- HTTP transport is not modelled: axios, the helpers in `src/API_handler.js`,
  promises and ordering. Each call's answer is a parameter.
- Some helpers are imported by the pages but not exported by
  `src/API_handler.js` (its exports are at lines 6-164). They are
  `testBookSeat` (SeatSelection.jsx:3) and `forgotPassword`, `verifyOTP` and
  `resetPassword` (ForgotPassword.jsx:5). Their reply shapes are therefore
  assumed, not read from any code:
  - the `booking` reply of `SeatSelection.SeatSelectionPage.HandleTestBooking`;
  - the `reply` of `ForgotPassword.ForgotPasswordPage.HandleEmailSubmit`,
    `HandleOTPSubmit` and `HandlePasswordReset`.

  Each is taken to be a `Reply` like the exported helpers give. As written,
  these imports name nothing that the helper module defines.
- Toasts, `alert`, `console` output, loading spinners and the two-second
  `setTimeout` before the leaderboard redirect are left out. Only the target
  route is kept.
- Date formatting of bookings and the progress-bar width (a float) are left
  out.
- The pages outside the core are left out: AdminLogin, AdminProfile,
  MonitorSeats, Leaderboard, PreviousGames, adminPrevious, RequestPending, the
  rich-text editor and the pure-markup components.
- The two logout buttons differ. AvailableGames (lines 83-85) removes only
  `userId` and `token`, keeps `isAdmin`, and goes to `/`. AdminDashboard
  (lines 93-96) also removes `isAdmin` and goes to `/admin`. Both are
  modelled: `AvailableGames.Logout` and `AdminDashboard.Logout`.
- `CreateGame`'s `defaultPrice` field is never read, so it is not modelled.
  The `showPriceSettings` toggle is presentation only.
- `parseInt` on arbitrary text is not modelled. Inputs arrive already parsed.
  The browser's `required` attribute and input `maxLength` limits are not
  modelled either.
- `isOccupied` is a boolean. Non-boolean JSON values, where `=== true`,
  `=== false` and truthiness could disagree, are not modelled.
- PaymentGateway.ValidateCardDetails: string lengths count code points, not
  UTF-16 units. The number and CVC are stored as typed, apart from whitespace
  and grouping, so they may hold any character. A character outside the Basic
  Multilingual Plane counts once here but twice in the source's `.length`
  checks (lines 17 and 23). For example, U+1F600 followed by "1" passes the
  source's CVC check but fails here. `PaymentForm.HandleSubmit` can therefore
  refuse a card that the source would send. For digits, spaces and slashes
  the two counts agree.
- `JSON.parse` of a malformed stored `user` record is not modelled. The admin
  check takes the parsed record, or None.
- `parseInt(seatId)` in the click handler is the identity on the integer ids
  the page holds.
- SeatsGrid.GenerateSeats: it requires `65 + rows` to be below the surrogate
  range, so that each row letter is a single code point. Larger grids are not
  modelled.
- The placeholder passenger's image URL is not modelled.
- UserAuth.UserAuthPage.HandleSubmit: a 200 login reply is assumed to carry
  `user`. Without it, lines 50-52 store `token` and `isAdmin` and then throw
  before `userId` is stored. The catch alerts, and the page stays with a
  half-written session and no navigation. That path is not modelled.
- ManageRequests.RequestsPage.Load: every request is assumed to carry its
  `userId` record. A null one makes line 60 throw, and the catch at lines
  70-72 empties the list. That path is not modelled; `Load` always yields
  `Rows` for a reply with requests.
- ManageRequests.RequestsPage.SetRequestStatus: toggling `update` re-runs the
  fetch effect. That re-fetch is the separate `Load` call, not part of the
  handler.
- The payment page's "Try Again" button (line 315) is rendered only on the
  'failed' screen. It appears only as `RetryClicked` in the pure status
  function `NextStatus`, since no code reaches that screen.
