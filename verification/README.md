# Restaurant site: cart, checkout, reservations, menu and reviews in Dafny

This project models the behaviour behind a restaurant's React website:

- the Redux cart slice, with its lines, totals and five reducers;
- the cart modal's checkout: the required-field check, the order pricing
  (8% tax and a flat delivery fee of 5) and what success and failure do to
  the cart and the form;
- the two reservation wizards: the four-step form component, which keeps
  its step after a submit, and the three-step page, which goes back to
  step 1. Both have the same "Next" gate;
- the four in-memory services (reservations, orders, menu items, reviews).
  Each is a table held in an array, with find-by-id, create, merge-update
  and delete-by-splice;
- the menu pages: the category and search filter, grouping by the four
  fixed category names, grouping by the categories present, and the item
  modal;
- the reviews pages: the trimmed-empty check on a new review, prepending it
  on success, the per-rating counts and the average;
- the home page's featured dishes and its quick reservation form.

Each mutable store or page state is a `class`, and each of its handlers is
a method. A method's `ensures` gives the complete new state in terms of
specification functions. The properties of those functions are proved as
lemmas. The pure computations (filter, grouping, pricing, statistics) are
functions with contracts.

Conventions used throughout:

- JavaScript objects that the services store and merge are `Record`s,
  maps from property names to `JsValue`s. The spread `{ ...a, ...b }` is
  map union with `b` winning, as in `Records.Spread`.
- The clock is a parameter: `now` is `Date.now()` in milliseconds, and
  `iso(t)` is `new Date(t).toISOString()`.
- Each page handler takes the outcome of its service call as a parameter
  (`created`). The value it would hand to the service is returned as
  `sent`.
- Money and averages are exact `real`s.

## Model

| member | source | states |
|---|---|---|
| CartSlice.IndexOfLine | src/store/cartSlice.js:15 | `find` by id: `None` exactly when no line has the id; otherwise the first such line |
| CartSlice.Cart.constructor | src/store/cartSlice.js:3-7 | the initial cart is empty, and its totals agree with the lines |
| CartSlice.Cart.AddToCart | src/store/cartSlice.js:13-27 | the lines become `Added(old lines, item, quantity or 1)`; both totals equal the sums over the new lines; one line per id is kept |
| CartSlice.AddMergesExisting | src/store/cartSlice.js:14-18 | for an id already present, only the first line with it grows by the quantity; no line is added and the others are unchanged |
| CartSlice.AddAppendsNew | src/store/cartSlice.js:19-24 | for a new id, exactly one line carrying the given quantity is appended; earlier lines are unchanged |
| CartSlice.AddKeepsIdsUnique | src/store/cartSlice.js:15-24 | with at most one line per id before, there is at most one line per id after |
| CartSlice.AddTotals | src/store/cartSlice.js:26 | `totalItems` grows by the quantity, and `totalAmount` by the quantity times the unit price of the line that received it |
| CartSlice.Cart.RemoveFromCart | src/store/cartSlice.js:29-33 | the lines become `WithoutId(old lines, id)`, and the totals are recomputed; one line per id is kept |
| CartSlice.RemoveKeepsIdsUnique | src/store/cartSlice.js:31 | with at most one line per id before, the filtered list has at most one line per id |
| CartSlice.RemoveDropsId | src/store/cartSlice.js:31 | every line with the id is gone; every other line is kept, with all its copies, in its original order; an absent id changes nothing |
| CartSlice.Cart.UpdateQuantity | src/store/cartSlice.js:35-48 | the lines become `Updated(old lines, id, quantity)`, and the totals are recomputed; one line per id is kept |
| CartSlice.UpdateKeepsIdsUnique | src/store/cartSlice.js:37-45 | with at most one line per id before, removing or re-quantifying a line leaves at most one line per id |
| CartSlice.UpdateNonPositiveRemoves | src/store/cartSlice.js:40-41 | a quantity <= 0 on a present id acts as `removeFromCart` |
| CartSlice.UpdatePositiveSets | src/store/cartSlice.js:42-44 | a positive quantity sets exactly that line's quantity, and every other line is unchanged |
| CartSlice.UpdateAbsentUnchanged | src/store/cartSlice.js:37-45 | an id not in the cart leaves the lines unchanged |
| CartSlice.Cart.ClearCart | src/store/cartSlice.js:50-54 | no lines, `totalAmount` 0 and `totalItems` 0 |
| CartSlice.Cart.CalculateTotals | src/store/cartSlice.js:56-59 | the totals are set to the two sums, and the lines are untouched |
| CartSlice.SumQuantities | src/store/cartSlice.js:57 | the loop computes the sum of the quantities |
| CartSlice.SumAmounts | src/store/cartSlice.js:58 | the loop computes the sum of price times quantity |
| CartModal.WithField | src/components/organisms/CartModal.jsx:47-53 | exactly the named field takes the value |
| CartModal.BuildOrder | src/components/organisms/CartModal.jsx:74-92 | the customer and address fields are copied, the lines are passed through, subtotal = cart amount, tax = 8/100 of it, fee 5, total = subtotal + tax + fee (108% of the amount plus 5), payment method 'credit_card' |
| CartModal.TwentyDollarOrder | src/components/organisms/CartModal.jsx:86-89 | a 20.00 cart is charged 1.60 tax and 26.60 in all |
| CartModal.MinusOnSingleRemoves | src/components/organisms/CartModal.jsx:183 | minus on a quantity-1 line requests 0, which removes the line |
| CartModal.StepperMovesByOne | src/components/organisms/CartModal.jsx:181-196 | with one line per id, plus and minus move that line's quantity by exactly one and leave the other lines alone |
| CartModal.CartModalState.constructor | src/components/organisms/CartModal.jsx:20-30 | not checking out, no form shown, all seven customer fields empty; the store it reads has consistent totals and one line per id, which every reducer keeps from the empty initial state |
| CartModal.CartModalState.HandleUpdateQuantity | src/components/organisms/CartModal.jsx:38-40 | dispatches `updateQuantity` and keeps the cart totals consistent |
| CartModal.CartModalState.PressMinus | src/components/organisms/CartModal.jsx:183 | requests the line's quantity minus one: from 1 the line is removed, from more than 1 only that line's quantity drops by one |
| CartModal.CartModalState.PressPlus | src/components/organisms/CartModal.jsx:192 | requests the line's quantity plus one: only that line's quantity grows by one |
| CartModal.CartModalState.HandleRemoveItem | src/components/organisms/CartModal.jsx:42-45 | dispatches `removeFromCart` |
| CartModal.CartModalState.HandleInputChange | src/components/organisms/CartModal.jsx:47-53 | updates only the named customer field |
| CartModal.CartModalState.HandleCheckout | src/components/organisms/CartModal.jsx:55-61 | an empty cart is refused and no form is shown; otherwise the form is shown |
| CartModal.CartModalState.HandleSubmitOrder | src/components/organisms/CartModal.jsx:63-114 | a missing name, email, phone or address stops before any call. On success the cart is cleared, the modal and form close and the form resets. On failure the cart and form are unchanged. `isCheckingOut` ends false |
| ReservationForm.TimeSlotsAreHalfHours | src/components/organisms/ReservationFormSteps.jsx:14-17 | the slots are exactly the nine half hours from 5:00 PM to 9:00 PM, in order |
| ReservationForm.GuestOptions | src/components/organisms/ReservationFormSteps.jsx:79-82 | exactly 1..n, ascending |
| ReservationForm.WithInput | src/components/organisms/ReservationFormSteps.jsx:19-25 | the named field takes the value; every other draft field is unchanged |
| ReservationForm.EmptyDraftBlocksGates | src/components/organisms/ReservationFormSteps.jsx:51-60 | the reset draft passes neither the step-1 gate nor the step-2 gate |
| ReservationFormSteps.SubmitOnlyAtLastStep | src/components/organisms/ReservationFormSteps.jsx:355-373 | within 1..4, the submit button shows only at step 4 |
| ReservationFormSteps.FourStepWizard.constructor | src/components/pages/ReservationsPage.jsx:9-19 | the wizard starts at step 1 with the empty draft (guests 2) and not loading, the state its parent page creates |
| ReservationFormSteps.FourStepWizard.NextStep | src/components/organisms/ReservationFormSteps.jsx:62-66 | advances by one exactly when the gate holds and step < 4; the step stays in 1..4 |
| ReservationFormSteps.FourStepWizard.PrevStep | src/components/organisms/ReservationFormSteps.jsx:68-72 | goes back by one exactly when step > 1 |
| ReservationFormSteps.FourStepWizard.HandleInputChange | src/components/organisms/ReservationFormSteps.jsx:19-25 | only the named field changes; the step is kept |
| ReservationFormSteps.FourStepWizard.SelectTime | src/components/organisms/ReservationFormSteps.jsx:137 | a slot button sets `time` only |
| ReservationFormSteps.FourStepWizard.HandleSubmit | src/components/organisms/ReservationFormSteps.jsx:27-49 | sends the draft. On success the draft resets (guests 2) and the step is kept. On failure nothing changes. `loading` ends false |
| ReservationsPage.GuestChoices | src/pages/Reservations.jsx:181 | the guest choices are the ten values 1..10 in ascending order |
| ReservationsPage.SubmitOnlyAtLastStep | src/pages/Reservations.jsx:370-388 | within 1..3, the submit button shows only at step 3 |
| ReservationsPage.ThreeStepWizard.constructor | src/pages/Reservations.jsx:8-18 | step 1, the empty draft, not loading |
| ReservationsPage.ThreeStepWizard.NextStep | src/pages/Reservations.jsx:68-72 | advances by one exactly when the gate (lines 57-66) holds and step < 3 |
| ReservationsPage.ThreeStepWizard.PrevStep | src/pages/Reservations.jsx:74-78 | goes back by one exactly when step > 1 |
| ReservationsPage.ThreeStepWizard.HandleInputChange | src/pages/Reservations.jsx:25-31 | only the named field changes |
| ReservationsPage.ThreeStepWizard.SelectTime | src/pages/Reservations.jsx:202 | a slot button sets `time` only |
| ReservationsPage.ThreeStepWizard.HandleSubmit | src/pages/Reservations.jsx:33-55 | on success the draft resets and the step returns to 1; on failure nothing changes; `loading` ends false |
| Records.Spread | src/services/api/reservationService.js:38 | object spread: the right-hand fields win, and the left-hand ones fill in the rest |
| Records.IndexOfId | src/services/api/reservationService.js:34 | `findIndex` by id: `None` exactly when no record matches; otherwise the first match |
| Records.RemoveAt | src/services/api/reservationService.js:48 | `splice(i, 1)`: one shorter; the records before i and after i keep their order |
| Records.RemoveAtMultiset | src/services/api/reservationService.js:48 | the splice removes exactly one occurrence of the record |
| Records.MergeKeepsLookup | src/services/api/reservationService.js:38 | a merge whose patch has no `id` leaves the record findable at the same index |
| ReservationService.NewReservation | src/services/api/reservationService.js:22-27 | the caller's fields are kept, except that `id`, `status` 'pending' and `createdAt` override them |
| ReservationService.ReservationTable.GetAll | src/services/api/reservationService.js:6-9 | the table contents, in order |
| ReservationService.ReservationTable.GetById | src/services/api/reservationService.js:11-18 | the first record with the id, or "Reservation not found" exactly when none has it |
| ReservationService.ReservationTable.Create | src/services/api/reservationService.js:20-30 | appends the new record; the table grows by one |
| ReservationService.ReservationTable.Update | src/services/api/reservationService.js:32-40 | a missing id is an error with the table unchanged; otherwise only the first match is replaced by the merge |
| ReservationService.ReservationTable.Delete | src/services/api/reservationService.js:42-50 | a missing id is an error with the table unchanged; otherwise only the first match is spliced out |
| ReservationService.ReservationTable.GetAvailableTimeSlots | src/services/api/reservationService.js:52-59 | the same nine half-hour slots for any date |
| OrderService.NotFoundFor | src/services/api/orderService.js:18 | the miss message ends with the requested id |
| OrderService.OrderNumberShape | src/services/api/orderService.js:26 | "ORD-" then the last (up to) six digits of the timestamp, exactly six from 100000 ms on |
| OrderService.SuffixValue | src/services/api/orderService.js:26 | the last k digits of a digit string denote its value modulo 10^k (value = q·10^k + suffix, suffix < 10^k) |
| OrderService.OrderNumberDigits | src/services/api/orderService.js:26 | the digits after "ORD-" denote the clock reading modulo 10^6 |
| OrderService.Generated | src/services/api/orderService.js:24-29 | id, orderNumber, status 'pending', createdAt and estimatedDelivery from one clock reading |
| OrderService.NewOrder | src/services/api/orderService.js:23-30 | the caller's fields are spread last and override the generated ones |
| OrderService.DeliveryThirtyMinutesLater | src/services/api/orderService.js:29 | the estimated delivery is 30 minutes after the creation time |
| OrderService.OrderTable.GetAll | src/services/api/orderService.js:8-11 | the orders, in order |
| OrderService.OrderTable.GetById | src/services/api/orderService.js:13-20 | the first match, or an error naming the id |
| OrderService.OrderTable.Create | src/services/api/orderService.js:22-35 | appends one order |
| OrderService.OrderTable.Update | src/services/api/orderService.js:37-45 | a missing id is an error with no change; otherwise the merge goes into the first match only |
| OrderService.OrderTable.Delete | src/services/api/orderService.js:47-55 | a missing id is an error with no change; otherwise exactly one order is removed |
| MenuService.NewItem | src/services/api/menuService.js:27-30 | the generated id overrides the caller's |
| MenuService.MenuTable.GetAll | src/services/api/menuService.js:6-9 | the items, in order |
| MenuService.MenuTable.GetById | src/services/api/menuService.js:11-18 | the first match, or "Menu item not found" |
| MenuService.MenuTable.GetByCategory | src/services/api/menuService.js:20-23 | exactly the items of that category, every copy, in table order |
| MenuService.MenuTable.Create | src/services/api/menuService.js:25-33 | appends one item |
| MenuService.MenuTable.Update | src/services/api/menuService.js:35-43 | a miss is an error with no change; otherwise the merge goes into the first match only |
| MenuService.MenuTable.Delete | src/services/api/menuService.js:45-53 | a miss is an error with no change; otherwise exactly the first match is removed |
| ReviewService.DatePart | src/services/api/reviewService.js:25 | `split('T')[0]`: the longest prefix without a 'T' |
| ReviewService.NewReview | src/services/api/reviewService.js:22-26 | the generated id and date override the caller's |
| ReviewService.InsertByDate | src/services/api/reviewService.js:8 | inserting into a newest-first list keeps it newest first and adds exactly that review |
| ReviewService.SortNewestFirst | src/services/api/reviewService.js:8 | the result is newest first and a permutation of the input |
| ReviewService.InsertKeepsDateOrder | src/services/api/reviewService.js:8 | an inserted review goes in front of the reviews with the same date and leaves their order alone |
| ReviewService.SortIsStable | src/services/api/reviewService.js:8 | the sort is stable: the reviews of any one date keep their table order |
| ReviewService.ReviewTable.GetAll | src/services/api/reviewService.js:6-9 | every review, newest first, as a permutation of the table; reviews of equal date keep their table order; the table itself is not reordered |
| ReviewService.ReviewTable.GetById | src/services/api/reviewService.js:11-18 | the first match, or "Review not found" |
| ReviewService.ReviewTable.Create | src/services/api/reviewService.js:20-29 | the new review goes to the front |
| ReviewService.ReviewTable.Update | src/services/api/reviewService.js:31-39 | a miss is an error with no change; otherwise the merge goes into the first match only |
| ReviewService.ReviewTable.Delete | src/services/api/reviewService.js:41-49 | a miss is an error with no change; otherwise only the first match is removed |
| ReviewService.ReviewTable.GetAverageRating | src/services/api/reviewService.js:51-56 | 0 for an empty table; otherwise average × count = rating sum |
| Text.TrimEmptyIffBlank | src/pages/Reviews.jsx:39 | `trim()` is empty exactly for whitespace-only strings |
| Text.ToLower | src/pages/Menu.jsx:36-37 | `toLowerCase` per character, length preserved |
| Text.IncludesEmpty | src/pages/Menu.jsx:36-37 | every string includes the empty search term |
| Text.Decimal | src/services/api/reservationService.js:24 | `toString()` of a timestamp: nonempty, all digits, the last one the timestamp's last digit |
| Text.DecimalNoLeadingZero | src/services/api/reservationService.js:24 | `toString()` writes no leading zero |
| Text.DecimalValue | src/services/api/reservationService.js:24 | the digits written denote the number itself |
| Text.DecimalInjective | src/services/api/reservationService.js:24 | ids from different clock readings differ, and equal ones come from equal readings |
| Text.LastChars | src/services/api/orderService.js:26 | `slice(-n)`: the last n characters, or the whole string if it is shorter |
| Seqs.Filter | src/pages/Menu.jsx:34 | `filter` keeps exactly the elements satisfying the predicate, and is no longer than its input |
| Seqs.FilterCounts | src/pages/Menu.jsx:34 | `filter` keeps every copy of a selected element and no copy of a rejected one |
| Seqs.FilterIsSubsequence | src/pages/Menu.jsx:34 | `filter` keeps the original relative order |
| Seqs.Take | src/components/MainFeature.jsx:26 | `slice(0, n)`: the first min(n, length) elements |
| MenuPage.FilteredItems | src/pages/Menu.jsx:34-39 | an item is kept iff its category matches (or 'All') and the lower-cased name or description contains the lower-cased term; the result is an order-preserving subsequence keeping every copy of a kept item; the copy at src/components/pages/MenuPage.jsx:45-50 and src/components/pages/MenuPageWithModal.jsx:49-54 are the same |
| MenuPage.AllWithEmptySearchKeepsEverything | src/pages/Menu.jsx:34-39 | 'All' with an empty search keeps every item, in order |
| MenuPage.InCategory | src/pages/Menu.jsx:43 | holds an item exactly when it is a filtered item of that category |
| MenuPage.InCategoryKeepsOrder | src/pages/Menu.jsx:43 | each group is the subsequence of the filtered items with that category, in filtered order, every copy kept |
| MenuPage.GroupOver | src/pages/Menu.jsx:41-45 | the reduce gives every non-'All' name `InCategory` of the filtered items, and no other key |
| MenuPage.GroupedItems | src/pages/Menu.jsx:41-45 | exactly the four keys Appetizers, Main Courses, Desserts and Beverages, each holding `InCategory` of the filtered items (their order kept, by `MenuPage.InCategoryKeepsOrder`); the copy at src/components/pages/MenuPage.jsx:52-56 is the same |
| MenuPage.GroupPlacement | src/pages/Menu.jsx:41-45 | a filtered item is in its own category's group and in no other; one outside the four names is in no group |
| MenuPage.MenuPageState.constructor | src/components/pages/MenuPage.jsx:16-24 | 'All', empty search, nothing selected, modal closed |
| MenuPage.MenuPageState.HandleItemClick | src/components/pages/MenuPage.jsx:58-61 | selects the item and opens the modal |
| MenuPage.MenuPageState.CloseMenuModal | src/components/pages/MenuPage.jsx:192 | closes the modal and keeps the selection |
| MenuPageWithModal.GroupByCategory | src/components/pages/MenuPageWithModal.jsx:56-62 | the keys are exactly the categories present, each once, and no group is empty; each group is `InCategory` of the filtered items, so in filtered order; every item is in exactly one group |
| MenuPageWithModal.ItemModal.constructor | src/components/pages/MenuPageWithModal.jsx:17-18 | nothing selected, modal closed |
| MenuPageWithModal.ItemModal.HandleItemClick | src/components/pages/MenuPageWithModal.jsx:35-38 | opens the modal on the item |
| MenuPageWithModal.ItemModal.HandleCloseModal | src/components/pages/MenuPageWithModal.jsx:40-43 | closes the modal and clears the selection |
| ReviewBoard.IncompleteIsTrimGuard | src/pages/Reviews.jsx:39-42 | the guard holds exactly when the author or the comment is empty after `trim()` |
| ReviewBoard.CountRating | src/pages/Reviews.jsx:61 | the count is at most the number of reviews, and 0 exactly when no review has that rating |
| ReviewBoard.CountRatingSnoc | src/pages/Reviews.jsx:61 | one more review adds one to its own rating's count only |
| ReviewBoard.StarCountsCoverAll | src/pages/Reviews.jsx:59-63 | with ratings in 1..5, the five counts add up to the number of reviews |
| ReviewBoard.RatingDistribution | src/pages/Reviews.jsx:59-63 | ratings 5, 4, 3, 2, 1 in that order, each with its exact-match count; the copy at src/components/pages/ReviewsPage.jsx:66-70 is the same |
| ReviewBoard.DistributionCoversAll | src/pages/Reviews.jsx:59-63 | with ratings in 1..5, the distribution accounts for every review once |
| ReviewBoard.AverageRating | src/pages/Reviews.jsx:55-57 | 0 with no reviews; otherwise average × count = rating sum; the copy at src/components/pages/ReviewsPage.jsx:62-64 is the same |
| ReviewBoard.RatingTotalBounds | src/pages/Reviews.jsx:56 | with ratings in 1..5, the sum lies between 1 and 5 times the count |
| ReviewBoard.AverageWithinStars | src/pages/Reviews.jsx:55-57 | with ratings in 1..5, the average lies between 1 and 5 |
| ReviewBoard.ReviewBoardState.constructor | src/pages/Reviews.jsx:8-16 | the loaded reviews, dialog closed, draft ('', 5, '') |
| ReviewBoard.ReviewBoardState.OpenWriteReview | src/pages/Reviews.jsx:200 | opens the dialog only |
| ReviewBoard.ReviewBoardState.CloseWriteReview | src/pages/Reviews.jsx:272 | closes the dialog and keeps the draft |
| ReviewBoard.ReviewBoardState.SetAuthor | src/pages/Reviews.jsx:302 | only the draft's author changes |
| ReviewBoard.ReviewBoardState.SetComment | src/pages/Reviews.jsx:325 | only the draft's comment changes |
| ReviewBoard.ReviewBoardState.ClickStar | src/pages/Reviews.jsx:315 | star k of 1..5 sets the draft rating to k |
| ReviewBoard.ReviewBoardState.HandleSubmitReview | src/pages/Reviews.jsx:36-53 | a trimmed-empty author or comment is rejected with no call and no change. On success the review is prepended, the draft resets to ('', 5, '') and the dialog closes. On failure nothing changes; the copy at src/components/pages/ReviewsPage.jsx:43-60 is the same |
| HomeFeature.Featured | src/components/MainFeature.jsx:24-26 | the first min(3, count) dishes of the Appetizers, Main Courses or Desserts filter, in menu order, so every one is a main dish from the menu; with fewer than three, every such dish; the copy at src/components/organisms/MainFeatureSection.jsx:32-34 is the same |
| HomeFeature.FeaturedMayRepeatCategory | src/components/MainFeature.jsx:23-26 | a menu that starts with three appetizers features three appetizers, so one dish per category is not guaranteed |
| HomeFeature.QuickPayload | src/components/MainFeature.jsx:47-53 | the quick fields plus the fixed name, email, phone and special request; the copy at src/components/organisms/MainFeatureSection.jsx:55-61 is the same |
| HomeFeature.QuickGuestOptions | src/components/organisms/MainFeatureSection.jsx:76-79 | exactly 1..8, ascending; the copy at src/components/MainFeature.jsx:237 is the same |
| HomeFeature.TimeOptionsShape | src/components/organisms/MainFeatureSection.jsx:81 | the '' placeholder first, then the nine slots in order; the placeholder fails the guard and any slot with a date passes |
| HomeFeature.QuickReservation.constructor | src/components/MainFeature.jsx:11-15 | date '', time '', guests 2 |
| HomeFeature.QuickReservation.SetDate | src/components/MainFeature.jsx:202 | only the date changes |
| HomeFeature.QuickReservation.SetTime | src/components/MainFeature.jsx:215 | only the time changes |
| HomeFeature.QuickReservation.SetGuests | src/components/MainFeature.jsx:234 | only the guest count changes |
| HomeFeature.QuickReservation.HandleQuickReservation | src/components/MainFeature.jsx:38-61 | an empty date or time is rejected with no call. Otherwise it sends the fixed payload. On success the form resets to ('', '', 2); on failure it is unchanged; the copy at src/components/organisms/MainFeatureSection.jsx:46-69 is the same |

## Left out

- Rendering is not modelled: JSX markup, animation, icons, styling, star highlighting, skeletons, routing and the static sections.
- Toast notifications are not modelled. A handler's outcome shows only in its returned `sent` value and the new state.
- `delay`/`setTimeout` and `async` are not modelled. Each service call is one atomic step that succeeds or throws. There is no concurrency.
- The services are not wired to the pages. Each page takes the outcome of its call as a parameter, and each service is modelled on its own.
- The clock is a parameter. `Date.now()` is read once per `create`, where the source reads it up to three times in `orderService.create`. `toISOString` is an uninterpreted function `iso`, and `getMinDate` is left out.
- Floating point is not modelled. Money, tax and averages are exact reals, and the `toFixed` display rounding and the distribution percentages are left out.
- `ReviewBoard.AverageRating` is the average before `toFixed(1)`. The page's string result is not modelled.
- `ReviewService.ReviewTable.GetAverageRating` is the average before `toFixed(1)`. A missing or non-numeric `rating` counts as 0 (`ReviewService.RatingOf`), where JavaScript would concatenate or produce NaN.
- `ReviewService.ReviewTable.GetAll`: `new Date(review.date)` is a parameter `timeOf` giving milliseconds. Invalid dates (NaN comparisons) are not modelled.
- `Text.ToLower` lower-cases ASCII letters only. Unicode case mapping is not modelled.
- `MenuPageWithModal.GroupByCategory` states that the keys are distinct and are exactly the categories present. It does not state that they are in first-appearance order, although the loop builds them in that order.
- Redux plumbing (`dispatch`, `useSelector`) and React setters are not modelled. The cart modal holds the cart store directly.
- The contact forms, `MenuItemModal`'s "Add to Order" and the `MenuFilters` count are not modelled. They have no logic beyond resetting state.
- The fixture contents are not modelled. Every store starts from an arbitrary sequence.
- Loading and error state of the pages is not modelled. Neither is the `getAll` call that fills each list; the constructors take the loaded list.
- JavaScript object identity is not modelled. Copies returned by `{ ...record }` are plain values.
- Ids are compared as strings (`HasId`, `IndexOfLine`): a record whose `id` is a number never matches, where JavaScript `===` against a numeric argument could. No caller shown passes a numeric id.
