# EV charging marketplace: a verified model of the client-side logic

The application is a single-page React app in which riders find home EV
chargers, book charging sessions with optional add-ons and pay, and hosts
list chargers and amenities. It has no backend: all logic lives in page
components and one session context. This Dafny project models that logic
as immutable datatypes and pure state-transition functions, and proves
properties about them:

- **Booking** (`src/pages/BookingFlow.tsx`): energy charge, platform fee,
  GST and add-on totals, each rounded like `Math.round`; amenity toggling;
  which payment options are available; the three-step wizard; and the
  booking record written on submit.
- **Rewards** (`src/pages/Rewards.tsx`): the current tier, the next tier,
  the "points to go" card and capped challenge progress.
- **StationSearch** (`src/pages/Map.tsx`) and **Help**
  (`src/pages/Help.tsx`): the search-and-filter lists and the FAQ accordion.
- **PaymentMethods**, **Wallet**, **HostAmenities**, **Cookies** and
  **Settings**: the pages that edit lists, switches and the wallet.
- **Auth** (`src/contexts/AuthContext.tsx`) and **Register**
  (`src/pages/auth/Register.tsx`): login, register, logout and merge-update
  on the signed-in user, plus the registration form's checks.
- **HostEarnings** (`src/pages/BecomeHost.tsx`): the earnings estimator.

Shared helpers:

- **Money**: `Math.round` on exact reals, `Round(x) = Floor(x + 1/2)`.
- **Text**: `toLowerCase`, `includes`, `split(' ')[0]`, `slice(-n)` and
  `parseInt`.
- **Sequences**: `Array.prototype.filter`, counting and the subsequence
  relation.
- **Flags**: `{ ...prev, [key]: value }` records.
- **Types**: `User` and `ChargingStation` from `src/types/index.ts`.

React state setters become pure functions from the old state to the new
one. Each page's clickable controls become an `Event` datatype and a
`Dispatch` function. A control the page does not render in the current
state is a no-op. Random ids, `Date.now()` and `new Date()` are passed in
as parameters. JavaScript `null`, `undefined` and `NaN` are `None` of an
`Option`.

Three behaviours of the booking wizard are worth knowing:

- There is no "invalid input" error. Step 1's Continue is disabled until
  a date and a time are chosen, and the slider only yields 30 to 240
  minutes in steps of 15.
- Add-ons have no per-category cap. The 3/2/2 caps exist only on the host
  amenities page.
- The wallet option is preselected and is shown as unavailable when the
  balance is short, but submitting never checks the balance: an empty
  wallet still yields a confirmed booking (`Booking.EmptyWalletStillBooks`).

## Model

| member | source | states |
|---|---|---|
| Booking.AllItems | src/pages/BookingFlow.tsx:167-168 | the flattened list has one entry per catalogue item, starts with the first category's items in order, and contains every catalogue item |
| Booking.AllItemsOnlyCatalogue | src/pages/BookingFlow.tsx:167-168 | everything in the flattened list is an item of some category |
| Booking.AmenitiesTotalIsSelectedSum | src/pages/BookingFlow.tsx:93-103 | the nested-loop amenities total equals the price sum of the selected catalogue items, in catalogue order |
| Booking.SameChoiceSameTotal | src/pages/BookingFlow.tsx:93-103 | only which catalogue ids are selected matters: equal choices give equal item lists and totals |
| Booking.UnknownIdAddsNothing | src/pages/BookingFlow.tsx:93-103 | a selected id that names no catalogue item adds nothing to the total |
| Booking.DuplicateIdCountedOnce | src/pages/BookingFlow.tsx:93-103 | an id selected twice is charged once |
| Booking.ToggleAmenity | src/pages/BookingFlow.tsx:213-219 | toggling flips membership of that id and leaves every other id's membership alone |
| Booking.ToggleAbsentTwice | src/pages/BookingFlow.tsx:213-219 | toggling an unselected id twice restores the exact selection list |
| Booking.ChargingCost | src/pages/BookingFlow.tsx:105-108 | 0 without a station; otherwise within half a unit of hours × kW × price per kWh |
| Booking.PlatformFee | src/pages/BookingFlow.tsx:113 | within half a unit of 5% of the rounded energy charge |
| Booking.Gst | src/pages/BookingFlow.tsx:114 | within half a unit of 18% of the rounded energy charge |
| Booking.CalculateTotal | src/pages/BookingFlow.tsx:110-118 | 0 before a station is loaded, whatever is selected |
| Booking.TotalIsChargesPlusSelected | src/pages/BookingFlow.tsx:93-118 | with a station, the total is the three rounded charges plus the price sum of exactly the items the booking lists |
| Booking.FeesNearExact | src/pages/BookingFlow.tsx:110-118 | energy charge plus the separately rounded fees is within one unit of 123% of the energy charge |
| Booking.TotalNearExact | src/pages/BookingFlow.tsx:110-118 | the total less the add-ons is within one unit of 123% of the energy charge |
| Booking.ChargingCostMonotone | src/pages/BookingFlow.tsx:105-108 | a longer session never has a lower energy charge |
| Booking.ChargesNonNegative | src/pages/BookingFlow.tsx:105-114 | with non-negative minutes and rates, the energy charge, the fee and the GST are all non-negative |
| Booking.OneHourOnMockStation | src/pages/BookingFlow.tsx:64-82 | one hour on the 3.3 kW, 8-per-kWh station costs 26 + 1 + 5 = 32, and 112 with the breakfast |
| Booking.FortyFiveMinutesOnMockStation | src/pages/BookingFlow.tsx:64-82 | 45 minutes on that station cost 20 + 1 + 4 = 25 |
| Booking.MethodAvailable | src/pages/BookingFlow.tsx:120-142 | UPI and card are always available; the wallet exactly when the balance covers the total; no other id is |
| Booking.AvailabilityMonotone | src/pages/BookingFlow.tsx:126 | a larger balance or a smaller total never makes an option unavailable |
| Booking.Dispatch | src/pages/BookingFlow.tsx:305-553 | controls act only on their own step; step 1 is left only with a date and time; steps move by one; a payment option is taken only when available |
| Booking.ChoosePaymentSelects | src/pages/BookingFlow.tsx:487-496 | on the payment step, clicking an available option selects it and clicking an unavailable one changes nothing |
| Booking.DispatchPreservesWellFormed | src/pages/BookingFlow.tsx:342-361 | every event keeps the step in 1..3, the duration on the slider grid and a date and time past step 1 |
| Booking.RunWellFormed | src/pages/BookingFlow.tsx:25-29 | every draft reachable by any sequence of events is well formed |
| Booking.InitialWellFormed | src/pages/BookingFlow.tsx:25-29 | the initial draft is well formed |
| Booking.BackKeepsDraft | src/pages/BookingFlow.tsx:544-550 | Back from step 2 or 3 changes only the step |
| Booking.ReviewAlwaysAdvances | src/pages/BookingFlow.tsx:427-439 | Continue on step 2 always goes to step 3 and changes nothing else |
| Booking.ContinueFromStepOne | src/pages/BookingFlow.tsx:357-361 | Continue on step 1 advances exactly when both a date and a time are set |
| Booking.HandleBooking | src/pages/BookingFlow.tsx:144-194 | no station: nothing; signed out: login; otherwise a confirmed record with the given id and the station's title, address and host. Its energy charge is the price of the chosen minutes, its platform fee and GST are 5% and 18% of that charge, each rounded like Math.round, and its amount is the displayed total, which the breakdown sums to |
| Booking.StoreAllNewestFirst | src/pages/BookingFlow.tsx:193-194 | over any sequence of submissions the stored list is the confirmed records, newest first, in front of the earlier list; refused submissions leave no trace |
| Booking.RecordAmenitiesConsistent | src/pages/BookingFlow.tsx:163-181 | the record's amenities cost is the price sum of the amenities it lists |
| Booking.BookingIgnoresPayer | src/pages/BookingFlow.tsx:144-194 | the record does not depend on the payment method, the user or their balance |
| Booking.EmptyWalletStillBooks | src/pages/BookingFlow.tsx:120-142 | a rider with 0 in the wallet and the preselected wallet option still gets a confirmed booking |
| Rewards.FindTier | src/pages/Rewards.tsx:149-154 | the first tier whose band contains the points, or none |
| Rewards.CurrentTierIndex | src/pages/Rewards.tsx:149-154 | always a valid tier index (the first tier when none matches) |
| Rewards.CurrentTierIsBand | src/pages/Rewards.tsx:34-59 | for non-negative points, the current tier is i exactly when min_i <= points < min_(i+1) (no upper bound for the last) |
| Rewards.BandOf | src/pages/Rewards.tsx:34-59 | the band found by direct comparison with 1000, 2000 and 5000 matches the page's test |
| Rewards.NegativeIsBronze | src/pages/Rewards.tsx:149-154 | negative points fall back to Bronze |
| Rewards.CurrentTierMonotone | src/pages/Rewards.tsx:149-154 | more points never give a lower tier |
| Rewards.IndexOfName | src/pages/Rewards.tsx:157 | findIndex: the first tier with that name, or -1 when there is none |
| Rewards.NextTier | src/pages/Rewards.tsx:156-159 | the tier after the current one; none exactly at the last tier |
| Rewards.MaxTierExactly | src/pages/Rewards.tsx:156-159 | there is no next tier exactly from 5000 points |
| Rewards.NextTierViewReaches | src/pages/Rewards.tsx:156-159 | the points to go are exactly what lifts the user into the next tier, whose name is shown: every smaller gain keeps the current tier |
| Rewards.NextTierView | src/pages/Rewards.tsx:222-245 | "Max Tier Reached" exactly without a next tier; otherwise a positive number of points to go and, for non-negative points, a bar below 100% |
| Rewards.SampleBalance | src/pages/Rewards.tsx:25-32 | 1250 points is Silver, with Gold next and 750 to go |
| Rewards.DisplayedProgress | src/pages/Rewards.tsx:365 | the shown progress is the smaller of the progress and 100 |
| Rewards.EcoChampionCapped | src/pages/Rewards.tsx:61-116 | the over-target "Eco Champion" challenge shows 100 |
| StationSearch.FilteredStations | src/pages/Map.tsx:245-253 | a station is listed exactly when it passes the search and all three filters |
| StationSearch.FilteredKeepsOrder | src/pages/Map.tsx:245-253 | the list keeps the stations' order |
| StationSearch.FilteredIdempotent | src/pages/Map.tsx:245-253 | filtering the result again changes nothing |
| Text.EmptyQueryMatches | src/pages/Map.tsx:246-247 | an empty search matches anything (also the FAQ search, src/pages/Help.tsx:89-90) |
| Text.QueryCaseIgnored | src/pages/Map.tsx:246-247 | the query's letter case does not matter (also for the FAQ search, src/pages/Help.tsx:89-90) |
| StationSearch.RaisingMaxPriceKeeps | src/pages/Map.tsx:249 | raising the price limit never removes a station |
| StationSearch.SpecificFiltersNarrow | src/pages/Map.tsx:248-250 | choosing a socket or an availability shows part of the "any" list, in order |
| StationSearch.DefaultShows | src/pages/Map.tsx:21-26 | with the default filters and no search, any station at most 100 per kWh is listed |
| StationSearch.MockPricesAtMost20 | src/pages/Map.tsx:30-241 | every listed mock station costs at most 20 per kWh |
| StationSearch.DefaultShowsAllOf | src/pages/Map.tsx:21-26 | default filters with no search list every station at most 100 per kWh, unchanged |
| StationSearch.DefaultShowsAll | src/pages/Map.tsx:391 | the page initially lists all 11 stations |
| Help.FilteredFaqs | src/pages/Help.tsx:87-92 | a question is shown exactly when it matches the topic and the search |
| Help.FilteredFaqsOrderedAndStable | src/pages/Help.tsx:87-92 | the result keeps the order, and filtering it again changes nothing |
| Help.CategoryNarrowsAll | src/pages/Help.tsx:88 | a specific topic shows part of what "all" shows, in order |
| Help.InitialShowsAllOf | src/pages/Help.tsx:21-23 | "all" with no search lists every question unchanged |
| Help.InitialShowsAll | src/pages/Help.tsx:34-85 | the page opens listing all 10 questions |
| Help.ClickFaq | src/pages/Help.tsx:209 | a click opens the question unless it is the open one, which closes; no other question is open afterwards |
| Help.ClickTwiceRestoresOwnState | src/pages/Help.tsx:221 | two clicks on the same question leave it open or closed as before |
| PaymentMethods.AddCard | src/pages/PaymentMethods.tsx:67-87 | with any field empty nothing changes; otherwise one card is appended, masked to its last four digits and default exactly when the list was empty, and the form is cleared and closed |
| PaymentMethods.ProviderName | src/pages/PaymentMethods.tsx:98-99 | gpay is Google Pay, phonepe is PhonePe, anything else is Paytm |
| PaymentMethods.AddUpi | src/pages/PaymentMethods.tsx:89-109 | with no UPI id nothing changes; otherwise one entry is appended, default exactly when the list was empty, and the form is reset |
| PaymentMethods.SetDefault | src/pages/PaymentMethods.tsx:111-119 | an entry becomes default exactly when its id matches; no other field changes |
| PaymentMethods.Delete | src/pages/PaymentMethods.tsx:121-124 | removes every entry with that id and keeps the rest in order |
| PaymentMethods.InitialConsistent | src/pages/PaymentMethods.tsx:38-65 | the initial list has distinct ids and exactly one default |
| PaymentMethods.SetDefaultExactlyOne | src/pages/PaymentMethods.tsx:111-119 | with distinct ids, exactly the chosen entry is default afterwards |
| PaymentMethods.SetDefaultIdempotent | src/pages/PaymentMethods.tsx:111-119 | choosing the same default twice is choosing it once |
| PaymentMethods.DeleteNeverPromotes | src/pages/PaymentMethods.tsx:121-124 | deleting never makes another entry default |
| PaymentMethods.DeletingDefaultLeavesNone | src/pages/PaymentMethods.tsx:121-124 | deleting the default of a consistent list leaves no default |
| PaymentMethods.AddCardKeepsConsistent | src/pages/PaymentMethods.tsx:67-87 | adding a card with a fresh id keeps ids distinct and at most one default |
| PaymentMethods.AddUpiKeepsConsistent | src/pages/PaymentMethods.tsx:89-109 | adding a UPI id with a fresh id keeps ids distinct and at most one default |
| PaymentMethods.SetDefaultKeepsConsistent | src/pages/PaymentMethods.tsx:111-119 | choosing a default keeps at most one default |
| PaymentMethods.DeleteKeepsConsistent | src/pages/PaymentMethods.tsx:121-124 | deleting keeps ids distinct and at most one default |
| Wallet.AddMoney | src/pages/Wallet.tsx:98-106 | a positive amount (a truthy quick amount, else parseInt of the text) is added to the wallet and the modal resets; NaN, 0 or negative changes nothing |
| Wallet.Dispatch | src/pages/Wallet.tsx:300-375 | only Add touches the user; typing replaces the text and clears the quick amount; a closed modal ignores its controls |
| Wallet.DisabledMeansNoChange | src/pages/Wallet.tsx:373 | when the Add button is disabled, the handler would change nothing anyway |
| Wallet.AddMoneyNeverLowers | src/pages/Wallet.tsx:98-106 | the balance never drops, and rises by exactly the amount when a signed-in user adds a positive amount |
| Wallet.QuickTopUp | src/pages/Wallet.tsx:308 | open, pick a quick amount, add: the wallet grows by that amount and the modal is back to its start |
| Wallet.TypedTopUp | src/pages/Wallet.tsx:328-331 | typing the decimal digits of a positive amount and adding credits exactly that amount |
| Wallet.NegativeTypedRefused | src/pages/Wallet.tsx:100 | a typed negative amount is refused and nothing changes |
| Wallet.DispatchPreservesWellFormed | src/pages/Wallet.tsx:27 | the chosen quick amount is always one of the six listed amounts |
| HostAmenities.With | src/pages/HostAmenities.tsx:41-44 | replaces one category's list and leaves the other two alone |
| HostAmenities.HandleAdd | src/pages/HostAmenities.tsx:31-48 | with any field empty nothing changes; otherwise one offering priced by parseInt is appended to that category only, and the form is cleared and closed |
| HostAmenities.HandleDelete | src/pages/HostAmenities.tsx:50-55 | removes that id from that category only, keeping the order |
| HostAmenities.Dispatch | src/pages/HostAmenities.tsx:137-186 | the add form opens and saves only while the category is below its cap; delete is always available |
| HostAmenities.InitialWithinCaps | src/pages/HostAmenities.tsx:17-26 | the initial counts 2/1/0 are within the caps 3/2/2 |
| HostAmenities.DispatchWithinCaps | src/pages/HostAmenities.tsx:137 | no interaction takes a category past its cap |
| HostAmenities.RunWithinCaps | src/pages/HostAmenities.tsx:57-79 | no sequence of interactions takes a category past its cap |
| HostAmenities.AddIgnoresCap | src/pages/HostAmenities.tsx:31-48 | the handler itself does not check the cap: on a full category it appends a fourth (or third) item |
| HostAmenities.DeleteIdempotent | src/pages/HostAmenities.tsx:50-55 | deleting the same id twice is deleting it once |
| HostAmenities.AddThenDelete | src/pages/HostAmenities.tsx:31-55 | deleting the freshly added offering restores the catalogue |
| Cookies.HandlePreferenceChange | src/pages/Cookies.tsx:45-51 | "essential" is refused; any other key is negated (a missing key becomes true) and nothing else changes |
| Cookies.ChangeTwiceRestores | src/pages/Cookies.tsx:47-50 | changing the same present key twice restores the preferences |
| Cookies.ChangesCommute | src/pages/Cookies.tsx:45-51 | flipping two switches in either order gives the same preferences |
| Cookies.EssentialStaysOn | src/pages/Cookies.tsx:45-51 | essential stays on under any sequence of changes |
| Cookies.InitialEssentialOn | src/pages/Cookies.tsx:7-12 | essential starts on |
| Cookies.KeysMatchRows | src/pages/Cookies.tsx:144-149 | the rows' switches toggle "essential", "analytics", "marketing" and "personalization" |
| Cookies.SwitchRowKey | src/pages/Cookies.tsx:14-43 | every row that shows a switch toggles one of the record's keys other than "essential" |
| Cookies.ChangeKeepsRecord | src/pages/Cookies.tsx:45-51 | changing a key the record already has keeps exactly its keys, with essential on |
| Cookies.ClickRow | src/pages/Cookies.tsx:144-157 | clicking a required row, or past the last row, changes nothing |
| Cookies.ClickRowKeepsRecord | src/pages/Cookies.tsx:14-51 | clicking any row keeps the record's four keys, and essential stays on |
| Settings.ProfileRoundTrip | src/pages/Settings.tsx:30-70 | after a save while signed in, the form rebuilt from the user shows exactly the saved name, email and phone, with blank password fields |
| Settings.HandleProfileUpdate | src/pages/Settings.tsx:63-70 | only name, email and phone are written to the user; nothing happens when signed out |
| Settings.PasswordsIgnored | src/pages/Settings.tsx:63-70 | the password fields make no difference |
| Settings.SaveUntouchedForm | src/pages/Settings.tsx:30-70 | saving the form as first shown changes nothing |
| Settings.HandleNotificationChange | src/pages/Settings.tsx:72-77 | flips that switch and keeps every other |
| Settings.NotificationTwiceRestores | src/pages/Settings.tsx:72-77 | flipping the same switch twice restores the settings |
| Settings.HandlePrivacyChange | src/pages/Settings.tsx:79-84 | sets that entry and keeps every other |
| Settings.PrivacyChangeIdempotent | src/pages/Settings.tsx:79-84 | setting the same value twice is setting it once |
| Settings.PrivacyLastChoiceWins | src/pages/Settings.tsx:79-84 | of two choices for the same entry only the later counts |
| Settings.PrivacyChangeToCurrent | src/pages/Settings.tsx:79-84 | setting an entry to its current value changes nothing |
| Register.AsWrittenDiffers | src/pages/auth/Register.tsx:12 | the page's default role differs from the corrected one exactly for a non-empty query value other than "rider" and "host" |
| Register.DefaultRole | src/pages/auth/Register.tsx:20 | the role is "rider" or "host", and "host" exactly when asked for |
| Register.Submit | src/pages/auth/Register.tsx:88-221 | the browser blocks the submit exactly when a required field is empty or the terms box is unticked, and then the session is untouched; otherwise the page's handler decides |
| Register.UntouchedFormBlocked | src/pages/auth/Register.tsx:14-26 | the form as first shown, with the page's or the corrected default role, cannot be submitted and signs nobody in |
| Register.ShortPasswordRefused | src/pages/auth/Register.tsx:40-45 | a complete form with matching passwords under 6 characters is refused as too short and signs nobody in |
| Register.QueryGrantsAdmin | src/pages/auth/Register.tsx:12-222 | as written, `/register?role=admin`, a name, email and phone, two matching six-character passwords and the terms box ticked create and sign in an admin account |
| Register.TypingKeepsRole | src/pages/auth/Register.tsx:28-30 | typing into the fields never changes the role the form started with |
| Register.Dispatch | src/pages/auth/Register.tsx:28-30 | the two role buttons set exactly "rider" or "host"; typing never changes the role |
| Register.RoleStaysKnown | src/pages/auth/Register.tsx:99-113 | (corrected) starting from the corrected default role, whatever is done on the form the role stays "rider" or "host" |
| Register.HandleSubmit | src/pages/auth/Register.tsx:32-60 | a mismatch is refused first, then a password under 6 characters; register is called exactly when both checks pass; a refused form leaves the session |
| Register.RegisteredAccount | src/pages/auth/Register.tsx:32-60 | (corrected) an account created through the corrected form is a rider or host with the form's details, an empty wallet and no KYC |
| Auth.FindByEmail | src/contexts/AuthContext.tsx:74 | finds a user exactly when one has that email, and then the first such user in list order |
| Auth.Login | src/contexts/AuthContext.tsx:74-80 | succeeds exactly when a mock user has the email, signing that user in; on failure the session is unchanged |
| Auth.LoginIgnoresPassword | src/contexts/AuthContext.tsx:33-81 | the password plays no part in login |
| Auth.RegisterNotRemembered | src/contexts/AuthContext.tsx:74-103 | a registered account is not added to the login list: after logout its email logs in only if a mock account has it, and then that verified mock account signs in, not the new one |
| Auth.LogoutEndsSession | src/contexts/AuthContext.tsx:100-111 | after logout every update is a no-op, the shown balance is 0, and the next login alone decides who is signed in |
| Auth.MergeFull | src/contexts/AuthContext.tsx:107 | a patch supplying every field of another user replaces the user outright; one supplying the user's own values changes nothing |
| Auth.UpdateIdempotent | src/contexts/AuthContext.tsx:105-111 | applying the same patch twice is applying it once |
| Auth.UpdateCompose | src/contexts/AuthContext.tsx:105-111 | two updates in a row equal one update with the later fields winning |
| Auth.UpdateNothing | src/contexts/AuthContext.tsx:105-111 | an empty patch changes nothing |
| HostEarnings.PowerOf | src/pages/BecomeHost.tsx:85-86 | 3 exactly for "3kw", 7 exactly for "7kw", 22 exactly for "22kw"; anything else is undefined |
| HostEarnings.CalculateEarnings | src/pages/BecomeHost.tsx:84-93 | daily, monthly and yearly are each within half a unit of the unrounded share × 1, 30 and 365 |
| HostEarnings.DefaultEstimate | src/pages/BecomeHost.tsx:24-26 | 8 hours, 3 kW and 10 per kWh give 204, 6120 and 74460 |
| HostEarnings.MonthlyIsNotThirtyDays | src/pages/BecomeHost.tsx:89-90 | monthly is not 30 × daily: 2 h, 3 kW, 5 per kWh give 26 a day but 765 a month |
| HostEarnings.ExactHalfMonthly | src/pages/BecomeHost.tsx:87-91 | 3 h, 3 kW and 17 per kWh give 130, 3902 and 47468 with exact arithmetic (the browser shows 3901 a month, see Left out) |
| HostEarnings.MonthlyNearThirtyDays | src/pages/BecomeHost.tsx:89-90 | monthly is never more than 15 away from 30 × daily |
| HostEarnings.EarningsMonotone | src/pages/BecomeHost.tsx:84-93 | more hours, power or price never lower any figure |
| Text.IncludesAt | src/pages/Map.tsx:246-247 | the substring scan agrees with "the query starts at some index" |
| Text.LowerIdempotent | src/pages/Help.tsx:89-90 | lower-casing twice is lower-casing once |
| Text.FirstWord | src/pages/Cookies.tsx:148-149 | the text before the first space: a prefix with no space, followed by a space or the end |
| Text.LastChars | src/pages/PaymentMethods.tsx:77 | for positive n, the last n characters, or the whole string when shorter |
| Text.ParseIntDecimal | src/pages/Wallet.tsx:99 | parseInt reads back the decimal rendering of every natural number |
| Text.ParseIntMinusDigits | src/pages/Wallet.tsx:99 | parseInt of a minus sign and digits is the negated value |
| Text.ParseIntSkipsSpace | src/pages/Wallet.tsx:99 | a fact about `parseInt` itself, not about the wallet field (a `type="number"` input never hands it leading space): it ignores any leading ECMAScript white space or line terminator |
| Text.IdeographicSpaceSkipped | src/pages/Wallet.tsx:99 | a fact about `parseInt` itself: an ideographic space followed by "5" reads as 5 |
| Text.ParseIntNoDigits | src/pages/HostAmenities.tsx:38 | empty text, or text starting with no decimal digit, sign or space, is NaN (so "abc" is NaN) |
| Money.Round | src/pages/BookingFlow.tsx:107 | Math.round: the nearest integer, halves rounded up |
| Money.RoundMonotone | src/pages/BecomeHost.tsx:89-91 | rounding never reverses an order |
| Flags.Negate | src/pages/Cookies.tsx:47-50 | flips one key (a missing key becomes true) and keeps the others |
| Flags.NegateTwice | src/pages/Settings.tsx:72-77 | flipping a present key twice restores the record |
| Flags.NegateTwiceAbsent | src/pages/Cookies.tsx:49 | flipping a missing key twice leaves it present and off |

## Left out

- Rendering, styling, animation, toasts and navigation. `navigate('/login')` is the `LoginRequired` outcome. The booking-confirmation hand-off is the `Confirmed` record.
- localStorage persistence of the user, the bookings and the cookie preferences. The stored booking list is a plain sequence (`Booking.StoreBooking`, `Booking.StoreAll`).
- The 2-second simulated delay and the `loading` flags. Each submit is one atomic step.
- Random ids, `Date.now()` and `new Date()`. They are parameters.
- `getNextAvailableDate`. The date picker's minimum is not modelled: a date is any non-empty string.
- IEEE-754 floating point. Prices, fees and earnings are exact reals and rounding is exact. A product that lands within a rounding error of a half rounds differently in the browser.
- HostEarnings.CalculateEarnings: computes with exact reals. At 3 h, 3 kW and 17 per kWh the monthly figure is 3901.5, shown as 3902 (`HostEarnings.ExactHalfMonthly`). In doubles the product is 3901.4999999999995, which `Math.round` turns into 3901. About 90 of the 1,449 slider positions (23 hour settings × 3 chargers × 21 prices) differ by one in the monthly or yearly figure.
- Text.Lower: only ASCII letters are lower-cased. JavaScript's full Unicode case mapping is not modelled.
- Register.HandleSubmit: JavaScript's `length` counts UTF-16 code units, while the model counts characters. A password with characters outside the Basic Multilingual Plane is therefore shorter here than in the browser.
- Auth.Register: the stored user object also carries the form's password and confirmation fields (the form is spread into it). The model's `User` has no such fields.
- Auth.UpdateUser: a patch that sets a key to `undefined` is not modelled. A patch field is either supplied with a value or absent.
- Register.Submit: the browser gate checks only that required fields are non-empty and the terms box is ticked. The syntax check of `type="email"`, the browser's trimming of email input and its validation messages are not modelled; `type="tel"` has no check to model.
- Register.InitialForm: starts from the corrected default role (see Findings). The page as written is `Register.InitialFormAsWritten`.
- Register.RoleStaysKnown: holds for the corrected form only. On the page as written the role is any non-empty query value until a role button is clicked (`Register.QueryGrantsAdmin`).
- Register.RegisteredAccount: holds for the corrected form only. The page as written can create an account of any role.
- Text.ParseInt: the result is an unbounded integer. Precision loss beyond 2^53 and the `Infinity` result of very long digit strings are not modelled.
- The "N stations found" and "N questions found" labels are the lengths of the filtered lists. The station map's markers are not modelled.
- The wallet page's transaction list, the payment-method icons and the dashboards are hard-coded display data.
- Theme and language switches on the settings page.

## Findings

| source | as written | input that shows it | evidently intended | confidence | as-written member | corrected member |
|---|---|---|---|---|---|---|
| src/pages/auth/Register.tsx:12 | the `role` query parameter is taken as the new account's role without a check; the cast to `'host' \| 'rider'` on line 20 only silences the type checker | `/register?role=admin`, then filling in name, email and phone, two matching passwords of 6+ characters and ticking the terms box: the account is created with role "admin" | only "rider" or "host", as the form's type and its two role buttons allow | medium, not executed | Register.QueryGrantsAdmin | Register.DefaultRole |

The page as written is `Register.InitialFormAsWritten`, built on
`Register.DefaultRoleAsWritten`. `Register.QueryGrantsAdmin` fills in
every required field, ticks the terms box, passes the browser's gate
(`Register.Submit`) and gets an admin account. The corrected
`Register.InitialForm` uses `Register.DefaultRole`, so
`Register.RoleStaysKnown` and `Register.RegisteredAccount` hold for every
query value. `Register.AsWrittenDiffers` says exactly where the two differ.
