# PixelVault storefront scripts, modelled in Dafny

This project models the logic of the browser scripts behind the PixelVault
game storefront: the shared shopping cart kept in the browser's local
storage, the catalogue page (search, sort, pagination), the cart page,
the two-step checkout, the contact form, the flash-deals countdown, the
trending section, the newsletter forms, the game-details page and the hero
section's realm cards. Each script becomes one module. Objects whose
methods update their own state become classes. A storage item becomes a
field whose value says what `JSON.parse` would give. Decisions that are
pure computation become functions, and the properties that the pages rely
on are proved about them.

Modules:

- `Wrappers`: `Option`.
- `Text`: the JavaScript string built-ins the scripts use, namely `trim`,
  ASCII `toLowerCase`, `includes`, `split` on one character, number to
  text, `padStart(2, "0")`, and how a template literal renders `undefined`.
- `Email`: the regular expression `^[^\s@]+@[^\s@]+\.[^\s@]+$` that four
  scripts share. It is given as a ghost predicate and as an executable
  rule, and the two are proved to agree.
- `Games`: the catalogue record and `find` by identifier.
- `CartManagement`: `cartManagementSystem` and the cart badge, from
  `scripts/navigation-injector.js`.
- `Catalog`: `scripts/catalog-manager.js`.
- `CartPage`: `scripts/cart-manager.js`.
- `Checkout`: `scripts/checkout-manager.js`.
- `ContactForm`: `scripts/contact-form-handler.js`.
- `Countdown`: `scripts/flash-deals-countdown.js`.
- `Trending`: `scripts/trending-loader.js`.
- `Newsletter`: `scripts/newsletter-handler.js`.
- `GameDetails`: `scripts/game-details-manager.js`.
- `Hero`: `scripts/hero-animations.js`.

Inputs that come from the environment are passed in as parameters:

- the clock: each reading is a parameter (`now`; `later` where a method
  reads it twice, once for the end time and once in the first update);
- the random shuffle (the shuffled list);
- the string collation used by `localeCompare` (`collate`);
- whether a simulated submission succeeded;
- a form's entries and fields.

Two writers share the `pixelVaultCart` item. `cartManagementSystem` keys
its lines by `id`. The catalogue page keys its lines by
`uniqueIdentifier`. A cart line therefore carries both keys as optional
strings. Each writer fails to see the other's lines. The catalogue's add
misses the store's lines (`CatalogAddIgnoresStoreLines`), and so do the
cart page's buttons (`ButtonsMissStoreLines`). The store's add, remove
and update miss the lines the catalogue pushed
(`StoreMissesCatalogLines`).

## Model

| member | source | states |
|---|---|---|
| Text.Trim | scripts/contact-form-handler.js:126 | the result neither starts nor ends with whitespace and is no longer than the input |
| Text.TrimCutsOnlySpace | scripts/contact-form-handler.js:126 | the trimmed text is a contiguous slice of the input |
| Text.TrimEmptyIffAllSpace | scripts/catalog-manager.js:88 | trimming gives "" exactly when the input is all whitespace |
| Text.Lower | scripts/catalog-manager.js:89-95 | same length, and each character is lowered on its own (A–Z to a–z, the rest kept) |
| Text.Includes | scripts/catalog-manager.js:92-95 | true exactly when the query occurs at some position of the text |
| Text.Split | scripts/hero-animations.js:123 | at least one part, and no part holds the separator |
| Text.SplitJoin | scripts/hero-animations.js:123 | joining the parts with the separator gives back the input |
| Text.IndexOfChar | scripts/hero-animations.js:123 | the first position of the character |
| Text.NatToString | scripts/flash-deals-countdown.js:69-71 | decimal digits with no leading zero, one digit exactly below 10 |
| Text.NatToStringRoundTrip | scripts/flash-deals-countdown.js:69-71 | reading the digits back gives the number |
| Text.PadStart2 | scripts/flash-deals-countdown.js:69-71 | a text of length 2 or more is unchanged; a shorter one gets leading zeros up to length 2 |
| Text.Interpolate | scripts/contact-form-handler.js:378 | a missing value renders as "undefined", a present one as itself |
| Email.EmailRuleMatchesRegex | scripts/checkout-manager.js:366-369 | the executable rule accepts exactly the strings the regular expression matches |
| Email.IsValidEmail | scripts/checkout-manager.js:366-369 | no whitespace, one `@` not at the start, and a `.` in the domain neither first nor last; EmailRuleMatchesRegex equates it with the regular expression |
| Games.FindGame | scripts/trending-loader.js:156-159 | None exactly when no game has the identifier, otherwise the first game that has it |
| CartManagement.ReadCart | scripts/navigation-injector.js:255-263 | a missing item reads as the empty cart, a stored list as itself |
| CartManagement.FindIndex | scripts/navigation-injector.js:209-211 | -1 exactly when no line has the key, otherwise the first line that has it |
| CartManagement.RemoveLines | scripts/navigation-injector.js:233 | no longer than before, and only lines of the cart whose id differs from the key |
| CartManagement.AddExistingIncrements | scripts/navigation-injector.js:207-214 | adding a present id raises that one line's quantity by one and leaves every other line as it was |
| CartManagement.AddNewAppends | scripts/navigation-injector.js:215-222 | adding an absent id appends exactly one line, with quantity 1 |
| CartManagement.RemoveLinesFilters | scripts/navigation-injector.js:231-236 | every line with another id survives, and removing an absent id changes nothing |
| CartManagement.RemoveLinesKeepsOthers | scripts/navigation-injector.js:233 | every line whose id differs from the key survives the removal |
| CartManagement.RemoveAbsentKeepsAll | scripts/navigation-injector.js:233 | removing an id that no line carries leaves the cart as it was |
| CartManagement.RemoveLinesCutsOne | scripts/navigation-injector.js:233 | in a cart with one line per id, removal cuts exactly that line out and keeps the order of the rest |
| CartManagement.NeighboursSurviveRemoval | scripts/navigation-injector.js:233 | with distinct ids, the lines before and after the removed one are untouched |
| CartManagement.OthersHaveOtherIds | scripts/navigation-injector.js:233 | with distinct ids, no other line shares the removed line's id |
| CartManagement.RemoveLinesConcat | scripts/navigation-injector.js:233 | removal distributes over concatenation |
| CartManagement.AddThenRemoveRestores | scripts/navigation-injector.js:207-236 | adding a new id and then removing it restores the cart |
| CartManagement.UpdateLinesCases | scripts/navigation-injector.js:239-252 | nothing is saved exactly when the id is absent; otherwise the first line is cut (quantity <= 0) or gets the new quantity |
| CartManagement.UniqueKeysSlice | scripts/navigation-injector.js:245 | cutting one line keeps the ids distinct |
| CartManagement.AddKeepsWellFormed | scripts/navigation-injector.js:207-228 | adding keeps one line per id and every quantity positive |
| CartManagement.RemoveKeepsWellFormed | scripts/navigation-injector.js:231-236 | removing keeps one line per id and every quantity positive |
| CartManagement.UpdateKeepsWellFormed | scripts/navigation-injector.js:239-252 | updating keeps one line per id and every quantity positive, whatever the new quantity |
| CartManagement.StoreMissesCatalogLines | scripts/navigation-injector.js:207-252 | on lines without an `id`, as the catalogue page pushes them, the store finds no line for a defined id: the add appends, and remove and update change nothing |
| CartManagement.OperationsKeepWellFormed | scripts/navigation-injector.js:205-324 | any sequence of adds, removes, updates and clears keeps that invariant |
| CartManagement.SumsAppend | scripts/navigation-injector.js:311-317 | the total and the item count of a concatenation are the sums of the parts |
| CartManagement.SumsUpdate | scripts/navigation-injector.js:311-317 | replacing a line changes the total and the count by the difference of that line |
| CartManagement.AddRaisesTotals | scripts/navigation-injector.js:207-228 | adding raises the item count by one and the total by one unit's price |
| CartManagement.IndicatorActiveIffNonEmpty | scripts/navigation-injector.js:173-190 | with positive quantities the badge is active exactly when the cart has lines |
| CartManagement.CartIndicator | scripts/navigation-injector.js:173-190 | the badge shows the total quantity and is active when it is positive; IndicatorActiveIffNonEmpty ties it to a non-empty cart |
| CartManagement.AddLine | scripts/navigation-injector.js:207-228 | one line longer exactly when no line has the id, the same length exactly when one has |
| CartManagement.UpdateLines | scripts/navigation-injector.js:239-252 | a saved list is one line shorter for a non-positive quantity and the same length otherwise |
| CartManagement.Subtotal | scripts/navigation-injector.js:311-317 | with no negative prices and positive quantities the total is not negative |
| CartManagement.ItemCount | scripts/navigation-injector.js:173-190 | the sum of the quantities; SumsAppend and AddRaisesTotals relate it to the list operations |
| CartManagement.CartStore.constructor | scripts/navigation-injector.js:205 | the store starts from the given storage item |
| CartManagement.CartStore.Items | scripts/navigation-injector.js:193-201 | a missing item reads as the empty cart |
| CartManagement.CartStore.AddItemToCart | scripts/navigation-injector.js:207-228 | saves the added list, raises the count by one and keeps the invariant |
| CartManagement.CartStore.RemoveItemFromCart | scripts/navigation-injector.js:231-236 | always saves; no saved line has the id; keeps the invariant |
| CartManagement.CartStore.UpdateItemQuantity | scripts/navigation-injector.js:239-252 | an absent id saves nothing; otherwise saves the updated list; keeps the invariant |
| CartManagement.CartStore.ClearCart | scripts/navigation-injector.js:320-323 | saves the empty list, after which the total is 0 and the badge is inactive |
| CartManagement.CartStore.CalculateCartTotal | scripts/navigation-injector.js:311-317 | 0 for an empty cart, and not negative with no negative prices and positive quantities |
| Catalog.AnyTagIncludes | scripts/catalog-manager.js:95 | true exactly when some lowered tag contains the query |
| Catalog.KeepMatching | scripts/catalog-manager.js:90-96 | keeps exactly the matching games, in their order, each as many times as in the input |
| Catalog.SearchFilterSpec | scripts/catalog-manager.js:88-97 | a blank query keeps the list; any other keeps exactly the games whose title, subtitle, description or a tag contains the lowered query, in order |
| Catalog.SearchFilter | scripts/catalog-manager.js:88-97 | the result is an ordered sub-list of the games and holds no game more often than the input |
| Catalog.SubsequenceOfSelf | scripts/catalog-manager.js:88-97 | a list is a subsequence of itself (the blank-query case) |
| Catalog.Insert | scripts/catalog-manager.js:118-138 | one insertion step adds exactly that game |
| Catalog.StableSort | scripts/catalog-manager.js:118-138 | the sort is a permutation |
| Catalog.InsertMembers | scripts/catalog-manager.js:118-138 | an insertion adds no other game |
| Catalog.ConsSorted | scripts/catalog-manager.js:118-138 | a game no greater than a sorted rest gives a sorted list |
| Catalog.InsertSorted | scripts/catalog-manager.js:118-138 | insertion keeps a list sorted |
| Catalog.WithKeyCons | scripts/catalog-manager.js:118-138 | the games with one key, taken from a list that starts with a given game |
| Catalog.InsertStable | scripts/catalog-manager.js:118-138 | insertion places the new game before the games with an equal key |
| Catalog.StableSortCorrect | scripts/catalog-manager.js:118-138 | sorted, a permutation, and games with equal keys keep their input order |
| Catalog.SortGamesSpec | scripts/catalog-manager.js:118-138 | each option's order (price up/down, rating down, newest first, alphabetical); ties keep their input order; "featured" and unknown options return the input unchanged |
| Catalog.KeyFor | scripts/catalog-manager.js:121-137 | there is no key (no reordering) exactly for options other than the five the switch names |
| Catalog.SortGames | scripts/catalog-manager.js:118-138 | the sorted copy holds the same games, each as often |
| Catalog.TotalPages | scripts/catalog-manager.js:103-105 | the least page count that covers every game |
| Catalog.PageSlice | scripts/catalog-manager.js:141-146 | at most one page of games, the consecutive games from the page's start |
| Catalog.Window | scripts/catalog-manager.js:145 | a slice holds the consecutive games from its start, no more than asked for and no more than there are |
| Catalog.PaginationWindow | scripts/catalog-manager.js:385-411 | at most five consecutive pages, all in range, and the active button is exactly the current page, which is shown when it is in range |
| Catalog.CatalogScoreBand | scripts/catalog-manager.js:244-249 | one of four colour bands |
| Catalog.CatalogScoreBandMonotone | scripts/catalog-manager.js:244-249 | a higher score never gets a lower band; the top band starts at 8.5, the top two at 7.5, and the bottom one is below 6.5 |
| Catalog.CatalogScoreColor | scripts/catalog-manager.js:244-249 | emerald from 8.5, amber from 7.5 below 8.5, red from 6.5 below 7.5, grey below 6.5 |
| Catalog.CatalogAddIgnoresStoreLines | scripts/catalog-manager.js:312-323 | on a cart written by the store, the catalogue's add always pushes a new line |
| Catalog.CatalogState.constructor | scripts/catalog-manager.js:11-19 | the initial state: page 1, 6 per page, featured order, no query |
| Catalog.CatalogState.LoadGamesData | scripts/catalog-manager.js:22-46 | shows the loaded list unfiltered with its page count |
| Catalog.CatalogState.ApplyFilters | scripts/catalog-manager.js:84-115 | the shown list is the sorted search result of the full list; the page count covers it; the current page is clamped into range |
| Catalog.CatalogState.OnSearchInput | scripts/catalog-manager.js:56-60 | stores the query, goes back to page 1, refilters and recounts the pages; the games and the sort option are kept |
| Catalog.CatalogState.OnSortChange | scripts/catalog-manager.js:64-67 | stores the option, refilters and recounts the pages; a page past the new count is clamped to the last page (1 when there is none), any other is kept; the games and the query are kept |
| Catalog.CatalogState.GoToPage | scripts/catalog-manager.js:417-430 | an out-of-range page changes nothing; otherwise it becomes the current page |
| Catalog.CatalogState.CurrentPageGames | scripts/catalog-manager.js:141-146 | at most one page, the shown games from the page's start |
| Catalog.CatalogState.GamesRange | scripts/catalog-manager.js:444-451 | the 1-based first and last positions of the games on the page |
| Catalog.CatalogState.AddGameToCart | scripts/catalog-manager.js:295-339 | an unknown id does nothing; otherwise the line keyed by `uniqueIdentifier` is raised by one or pushed, and the count rises by one |
| CartPage.OrderTotals | scripts/cart-manager.js:196-201 | the subtotal is the sum of price times quantity, the tax is 8% of it, and the total is their sum |
| CartPage.TotalsOrdered | scripts/cart-manager.js:196-201 | with no negative lines, 0 <= tax <= subtotal <= total, and total = 1.08 × subtotal |
| CartPage.SubtotalNonNegative | scripts/cart-manager.js:196-198 | with no negative lines, the subtotal is not negative |
| CartPage.CheckoutDisabled | scripts/cart-manager.js:209 | disabled exactly when the cart is empty, which is exactly when proceeding to checkout writes nothing |
| CartPage.CountLabelReadsBack | scripts/cart-manager.js:213-224 | the label starts with digits that read back as the count, followed by " item" exactly when the count is 1 and " items" otherwise |
| CartPage.CountLabel | scripts/cart-manager.js:221-223 | the count followed by " item", plus "s" unless the count is 1; CountLabelReadsBack reads it back |
| CartPage.CartUniqueIdentifiers | scripts/cart-manager.js:247 | one entry per line, each the line's `uniqueIdentifier` |
| CartPage.AvailableGames | scripts/cart-manager.js:250-252 | exactly the games whose identifier is not in the cart |
| CartPage.SelectRecommendations | scripts/cart-manager.js:244-256 | the first four of the shuffled available games (all of them when fewer), each from the catalogue, none already in the cart, and none more often than in the shuffle |
| CartPage.StoreCartExcludesNothing | scripts/cart-manager.js:247-252 | on a cart written by the store, no game is excluded |
| CartPage.ButtonPathsKeepPositive | scripts/cart-manager.js:130-155 | both button paths keep every quantity positive |
| CartPage.ButtonsMissStoreLines | scripts/cart-manager.js:47 | on a cart written by the store, the buttons' id matches no line, so update and remove change nothing |
| CartPage.UpdateQuantity | scripts/cart-manager.js:130-155 | a non-positive quantity removes when the row is shown and otherwise does nothing; a positive one updates; positive quantities stay positive |
| CartPage.ProceedToCheckout | scripts/cart-manager.js:495-517 | nothing is written exactly when the cart is empty; the snapshot holds the lines and the subtotal as its total |
| CartPage.SnapshotOmitsTax | scripts/cart-manager.js:504-511 | for a non-empty cart of positive lines, the snapshot's total is below the summary's total |
| CartPage.SubtotalPositive | scripts/cart-manager.js:196-198 | a non-empty cart of positive lines has a positive subtotal |
| CartPage.GetCartStats | scripts/cart-manager.js:520-537 | count, distinct lines and value of the cart; the average is 0 with no items |
| CartPage.CartStatsConsistent | scripts/cart-manager.js:520-537 | the average times the count gives back the total value; there are at least as many items as lines, and no items exactly for an empty cart |
| Checkout.ProgressStatus | scripts/checkout-manager.js:196-208 | completed exactly before the current step, active exactly at it |
| Checkout.ProgressIndicator | scripts/checkout-manager.js:193-209 | one status per step, in order |
| Checkout.ProgressHasOneActive | scripts/checkout-manager.js:193-209 | with the step in range, exactly one step is active and the steps before it are the completed ones |
| Checkout.ContactRecord | scripts/checkout-manager.js:76-80 | one key per entry name, and its value is the trimmed value of the last entry with that name |
| Checkout.LastEntryWins | scripts/checkout-manager.js:78-80 | writing one more entry keeps every key tied to its last entry |
| Checkout.ContactCheck | scripts/checkout-manager.js:82-95 | no error exactly when name and e-mail are present and the e-mail is valid |
| Checkout.DigitsOf | scripts/checkout-manager.js:356 | only digits, and no longer than the input |
| Checkout.DigitsOfAppend | scripts/checkout-manager.js:356 | the digits of a concatenation are the digits of the parts |
| Checkout.DigitsOfDigits | scripts/checkout-manager.js:356 | a string of digits is its own digits |
| Checkout.DigitsOfNone | scripts/checkout-manager.js:356 | punctuation has no digits |
| Checkout.AppendPunctuationDigits | scripts/checkout-manager.js:358-360 | appending punctuation and then digits adds exactly those digits |
| Checkout.FormatPhoneNumber | scripts/checkout-manager.js:355-363 | the layout for each digit count: bare digits below 3 and from 6 to 9, `(ddd) ` plus the rest from 3 to 5, and `(ddd) ddd-dddd` plus any extra digits from 10 |
| Checkout.FormatKeepsDigits | scripts/checkout-manager.js:355-363 | formatting keeps the digits, in order |
| Checkout.FullNumberDigits | scripts/checkout-manager.js:358 | the ten-digit layout holds exactly the input digits |
| Checkout.AreaCodeDigits | scripts/checkout-manager.js:360 | the short layout holds exactly the input digits |
| Checkout.FormatIdempotent | scripts/checkout-manager.js:355-363 | formatting twice equals formatting once |
| Checkout.CheckoutState.constructor | scripts/checkout-manager.js:4-14 | step 1 of 2, an empty cart, no contact information, zero totals |
| Checkout.CheckoutState.LoadCartItems | scripts/checkout-manager.js:25-40 | loads the stored cart, and redirects exactly when it is empty |
| Checkout.CheckoutState.UpdateOrderSummary | scripts/checkout-manager.js:280-288 | the summary is the cart's totals with 8% tax |
| Checkout.CheckoutState.NextStep | scripts/checkout-manager.js:153-159 | advances only below the last step and stays in range |
| Checkout.CheckoutState.PreviousStep | scripts/checkout-manager.js:161-167 | goes back only above step 1 and stays in range |
| Checkout.CheckoutState.EditStep | scripts/checkout-manager.js:169-173 | jumps to the given step, with no range check |
| Checkout.CheckoutState.HandleContactSubmit | scripts/checkout-manager.js:74-99 | an error leaves step and contact unchanged; otherwise the trimmed record is kept and the wizard advances |
| Checkout.CheckoutState.ClearCart | scripts/checkout-manager.js:339-342 | the stored cart is removed and the page's copy emptied |
| ContactForm.FieldMessageEmptyIffValid | scripts/contact-form-handler.js:125-167 | a field shows no message exactly when it passes every rule |
| ContactForm.FieldValid | scripts/contact-form-handler.js:125-167 | a field passes when the trimmed value meets the required, e-mail, name, message and subject rules; FieldMessageEmptyIffValid ties it to the message |
| ContactForm.FieldMessage | scripts/contact-form-handler.js:125-167 | the message of the last failing check in the script's order; empty exactly when the field is valid (FieldMessageEmptyIffValid) |
| ContactForm.ValidateField | scripts/contact-form-handler.js:125-167 | valid exactly when every rule holds; the message is that of the last failing check |
| ContactForm.FieldMessages | scripts/contact-form-handler.js:110-117 | one message per field |
| ContactForm.FieldMessagesPointwise | scripts/contact-form-handler.js:113-117 | each field gets its own message, at its position |
| ContactForm.NoMessagesAppend | scripts/contact-form-handler.js:113-117 | a list shows no message exactly when its parts show none |
| ContactForm.ValidateAllFields | scripts/contact-form-handler.js:109-120 | every field is validated; the form is valid exactly when every field is |
| ContactForm.AllValidIffNoMessages | scripts/contact-form-handler.js:109-120 | the form passes exactly when no field shows a message |
| ContactForm.ValidateFormData | scripts/contact-form-handler.js:343-371 | the errors of the data, pushed in order |
| ContactForm.PushErrors | scripts/contact-form-handler.js:344-370 | the pushes given each check's outcome |
| ContactForm.ErrorListExactly | scripts/contact-form-handler.js:346-368 | each error is listed exactly when its check fails, the second e-mail and message errors only when the field is filled |
| ContactForm.FormErrors | scripts/contact-form-handler.js:343-371 | the errors of the data in push order; ErrorListExactly says which appear |
| ContactForm.ErrorListOrdered | scripts/contact-form-handler.js:346-368 | at most five errors, in fixed order, and none exactly when every check passes |
| ContactForm.FormErrorsExactly | scripts/contact-form-handler.js:343-371 | for the data: each error exactly when its condition holds, never two for one field, and none exactly when the data is valid |
| ContactForm.FormatFormData | scripts/contact-form-handler.js:376-384 | e-mail, subject and message copied; newsletter true exactly when the box sent "on" |
| ContactForm.FormattedNameSplits | scripts/contact-form-handler.js:378 | with no spaces in the names, splitting the name gives back the two names |
| ContactForm.ContactFormHandler.constructor | scripts/contact-form-handler.js:9 | not submitting at the start |
| ContactForm.ContactFormHandler.StartSubmission | scripts/contact-form-handler.js:71-81 | ignored while submitting; rejected with the field messages exactly when some field is invalid; otherwise the flag goes up |
| ContactForm.ContactFormHandler.FinishSubmission | scripts/contact-form-handler.js:86-103 | the message for the outcome, and the flag down either way |
| Countdown.Decompose | scripts/flash-deals-countdown.js:65-67 | minutes and seconds below 60, and the reading lies within the last second of the time left |
| Countdown.DecomposeUnique | scripts/flash-deals-countdown.js:65-67 | any reading with those bounds equals the split, so the split is determined |
| Countdown.TwoDigits | scripts/flash-deals-countdown.js:69-71 | at least two digits, exactly two below 100, reading back as the number |
| Countdown.LeadingZero | scripts/flash-deals-countdown.js:69-71 | a leading zero does not change the value |
| Countdown.FormattedReadsBack | scripts/flash-deals-countdown.js:287-302 | "Expired" exactly when no time is left; otherwise `H…:MM:SS` whose fields read back as the split |
| Countdown.FormattedTimeRemaining | scripts/flash-deals-countdown.js:287-302 | "Expired" exactly when no time is left; otherwise at least eight characters with colons before the minutes and the seconds |
| Countdown.UrgentIffUnderTenMinutes | scripts/flash-deals-countdown.js:74-76 | the urgency effect fires exactly when less than ten minutes remain |
| Countdown.FlashDealsCountdown.constructor | scripts/flash-deals-countdown.js:6-12 | no interval and no timers at the start |
| Countdown.FlashDealsCountdown.UpdateCountdown | scripts/flash-deals-countdown.js:56-77 | past the end, the interval is cleared and 00:00:00 is shown; otherwise the split is shown and the pulse starts when urgent |
| Countdown.FlashDealsCountdown.ShowClock | scripts/flash-deals-countdown.js:69-76 | shows the padded fields; the pulse starts when urgent |
| Countdown.FlashDealsCountdown.HandleCountdownEnd | scripts/flash-deals-countdown.js:82-100 | clears the recorded interval (the handle is kept), shows 00:00:00 and marks the countdown expired |
| Countdown.FlashDealsCountdown.StartCountdown | scripts/flash-deals-countdown.js:46-51 | one update, then a fresh interval recorded; an interval already running is not cleared; with time left the split is shown, otherwise 00:00:00 and expired |
| Countdown.FlashDealsCountdown.RegisterInterval | scripts/flash-deals-countdown.js:48-50 | a fresh handle is recorded and running; the display is untouched |
| Countdown.FlashDealsCountdown.PauseCountdown | scripts/flash-deals-countdown.js:307-312 | clears and forgets the interval, leaving none running; the display, the expired flag and the pulse are untouched |
| Countdown.FlashDealsCountdown.ResumeCountdown | scripts/flash-deals-countdown.js:317-321 | with a handle recorded nothing changes; otherwise one fresh interval runs and the display is brought up to date, so at most one interval runs |
| Countdown.FlashDealsCountdown.ResetCountdown | scripts/flash-deals-countdown.js:326-332 | the end moves to `hours` from the first clock reading, the old interval is cleared and exactly one fresh one runs; the display is the split of the time left at the second reading (00:00:00 and expired when none is left), the pulse follows that split, and with equal readings the display is `hours`:00:00 |
| Countdown.FlashDealsCountdown.RefreshDeals | scripts/flash-deals-countdown.js:216-231 | the end moves to 24 hours from the first clock reading and a fresh interval is added without clearing the old one; the display is the split of the time left at the second reading (00:00:00 and expired when none is left), and with equal readings it is 24:00:00 with the pulse stopped |
| Countdown.FlashDealsCountdown.InitializeCountdown | scripts/flash-deals-countdown.js:33-37 | the end is 24 hours after the first clock reading and one fresh interval runs; the display is the split of the time left at the second reading, and with equal readings it is 24:00:00 |
| Countdown.ShowsFullDay | scripts/flash-deals-countdown.js:216-231 | 24 hours split as 24:00:00, shown as "24", "00", "00", and not urgent |
| Countdown.OneTickLater | scripts/flash-deals-countdown.js:326-332 | when the update reads the clock up to one second after the end time was set, a reset to `hours` first shows (hours - 1):59:59 |
| Trending.SortByTrendScore | scripts/trending-loader.js:30-34 | the array is rearranged in place into non-increasing combined score |
| Trending.SinkLeft | scripts/trending-loader.js:30-34 | one insertion step extends the sorted prefix by one game and keeps the same games |
| Trending.SinkStart | scripts/trending-loader.js:30-34 | a sorted prefix starts the insertion step |
| Trending.SinkStep | scripts/trending-loader.js:30-34 | one swap keeps the insertion step's invariant |
| Trending.SinkDone | scripts/trending-loader.js:30-34 | when the insertion step stops, the prefix is sorted |
| Trending.Swap | scripts/trending-loader.js:30-34 | exchanges two games and keeps the same games |
| Trending.SelectTrendingGames | scripts/trending-loader.js:28-37 | the caller's array is sorted in place; the result is its first six games (or all of them), and no game left out scores higher than one chosen |
| Trending.ScoreTier | scripts/trending-loader.js:135-148 | one of four tiers |
| Trending.ScoreColor | scripts/trending-loader.js:135-140 | emerald exactly from 9.0, slate exactly below 7.0 |
| Trending.ScoreClass | scripts/trending-loader.js:143-148 | "score-excellent" exactly from 9.0, "score-average" exactly below 7.0 |
| Trending.TrendScore | scripts/trending-loader.js:31-32 | scores in their ranges (0-10 and 0-100) give a combined score in 0-10; when the critic score is ten times the user score, the combined score is the user score |
| Trending.BadgesShareThresholds | scripts/trending-loader.js:135-148 | colour and class follow the same 9/8/7 thresholds, and a higher score never gets a lower tier |
| Trending.AddGameToCart | scripts/trending-loader.js:151-175 | an unknown id does nothing; otherwise the store adds the game under its identifier and the count rises by one |
| Trending.PayloadLinePresent | scripts/trending-loader.js:161-169 | after the add, a line has the game's identifier as its id, with quantity one more than before or 1 for a new line |
| Newsletter.SubscriptionCheckIsRegex | scripts/newsletter-handler.js:49-53 | the empty-string guard changes nothing: the check accepts exactly the regular expression's matches |
| Newsletter.IsValidSubscription | scripts/newsletter-handler.js:49-53 | a non-empty address that passes the e-mail rule; SubscriptionCheckIsRegex equates it with the regular expression |
| Newsletter.AfterSave | scripts/newsletter-handler.js:59-73 | an unusable item is left alone; otherwise the list holds the address once more at most, keeps its old entries first, and is unchanged when the address was listed |
| Newsletter.SaveKeepsDistinct | scripts/newsletter-handler.js:63-68 | saving keeps the list free of duplicates |
| Newsletter.SaveIdempotent | scripts/newsletter-handler.js:59-73 | saving the same address twice equals saving it once |
| Newsletter.NewsletterForm.constructor | scripts/newsletter-handler.js:5-8 | an unlocked form over the given storage item |
| Newsletter.NewsletterForm.SaveEmail | scripts/newsletter-handler.js:59-73 | the storage item becomes the saved list |
| Newsletter.NewsletterForm.SetSubscribedState | scripts/newsletter-handler.js:78-88 | the input is read-only, the button disabled, and the form marked subscribed |
| Newsletter.NewsletterForm.HandleSubmit | scripts/newsletter-handler.js:31-42 | an invalid trimmed address changes nothing; a valid one is saved and the form locked |
| GameDetails.InitialView | scripts/game-details-manager.js:7-42 | "not found" exactly for a missing id, "could not load" exactly when the fetch fails or no item matches, and otherwise the first matching game |
| GameDetails.SameCategoryOthers | scripts/game-details-manager.js:314-320 | exactly the other games of the same category, in dataset order, each as many times as in the dataset |
| GameDetails.PrefixSubsequence | scripts/game-details-manager.js:321 | the first games of a subsequence form a subsequence |
| GameDetails.SimilarGames | scripts/game-details-manager.js:313-321 | exactly the first three other games of the same category (all of them when fewer), in dataset order |
| GameDetails.WishIndex | scripts/game-details-manager.js:454-457 | -1 exactly when no entry has the identifier, otherwise the first entry that has it |
| GameDetails.ToggleCases | scripts/game-details-manager.js:459-469 | a toggle appends the game when absent, and otherwise cuts out its first entry |
| GameDetails.Toggled | scripts/game-details-manager.js:454-469 | one entry longer exactly when no entry has the identifier, one shorter exactly when one has; with unique identifiers the identifier is present afterwards exactly when it was absent before |
| GameDetails.CutShifts | scripts/game-details-manager.js:466 | the entries after the cut move down by one |
| GameDetails.CutKeepsUnique | scripts/game-details-manager.js:466 | cutting an entry keeps the identifiers distinct |
| GameDetails.ToggleKeepsUnique | scripts/game-details-manager.js:454-469 | toggling keeps the identifiers distinct |
| GameDetails.ToggleTwiceRestores | scripts/game-details-manager.js:454-469 | toggling an absent game twice restores the list |
| GameDetails.WishlistStore.constructor | scripts/game-details-manager.js:449-451 | the store starts from the given storage item |
| GameDetails.AddGameToWishlist | scripts/game-details-manager.js:446-471 | no game: nothing; an unreadable item: a throw before any write; otherwise the toggled list is written |
| GameDetails.DetailsAddToCart | scripts/game-details-manager.js:435-443 | the call is skipped exactly when there is no game or no navigation object; otherwise it throws |
| Hero.FirstCardToken | scripts/hero-animations.js:124 | None exactly when no token has the prefix, otherwise the first token that has it |
| Hero.GetCardType | scripts/hero-animations.js:122-126 | "all" when no token has the prefix; otherwise the rest of the first such token; never a space |
| Hero.CategoryUrl | scripts/hero-animations.js:117 | the catalogue address followed by the card's category |
| Hero.CardCategoryReadsBack | scripts/hero-animations.js:106-126 | a card classed `realm-card realm-card--t` leads to category `t`, and a bare card to "all" |
| Hero.ValidateEmailIsRegex | scripts/hero-animations.js:209-212 | the check accepts exactly the regular expression's matches |
| Hero.ValidateEmail | scripts/hero-animations.js:209-212 | the e-mail rule; ValidateEmailIsRegex equates it with the regular expression |
| Hero.HeroNewsletterForm.constructor | scripts/hero-animations.js:175-177 | an empty, unhighlighted form |
| Hero.HeroNewsletterForm.HandleNewsletterSubmission | scripts/hero-animations.js:175-193 | an invalid trimmed address highlights the input and keeps its text; a valid one shows "Subscribed!" and clears the input |

## Left out

- Rendering, the DOM, animations, notifications and styles are
  presentation, not decisions. This covers `renderGames`,
  `renderOrderSummary`, `showNotification`, `addVisualEffects` and the
  hero's hover and scroll effects.
- `fetch`, `URLSearchParams` and `window.location` are outside the model.
  A fetched list, an address parameter or a redirect flag is a parameter
  or a result here.
- Real timers (`setTimeout`, `setInterval`) are not modelled, and neither
  is the order in which async callbacks run. The countdown models interval
  handles as numbers drawn from a counter. The delayed removal at
  scripts/cart-manager.js:149-153 is modelled as if it had already
  happened. The hero's 150 ms, 200 ms and 3 s restorations are not
  modelled.
- The random shuffle of the recommendations is not modelled: the shuffled
  list is an input, required to be a permutation of the available games.
- `addRecommendationToCart` is not modelled: it only forwards to the
  store's add, which is modelled.
- `resetForm` is not modelled: it only clears the DOM controls.
- `generateOrderId` and the simulated order processing and form sending
  are not modelled. Their outcome is an input.
- `toFixed`, `toLocaleDateString` and `Date` parsing are not modelled.
  Prices and scores are exact reals, and release dates are integer
  timestamps.
- `localeCompare` is replaced by a ranking function passed in as
  `collate`.
- `toLowerCase` lowers ASCII letters only, where JavaScript lowers all of
  Unicode.
- Lengths count characters, where JavaScript counts UTF-16 code units.
- `trim` removes the characters `Text.IsSpace` lists: the ECMAScript
  WhiteSpace and LineTerminator code points.
- `JSON.parse` and `JSON.stringify` are not modelled. A storage item is
  described by the value parsing would give: `Option` for the cart,
  `Newsletter.Stored` and `GameDetails.WishlistSlot` for the other items.
- scripts/new-releases-loader.js and scripts/cookie-consent.js are not
  part of this model.
- Trending.SortByTrendScore: does not state that games with equal scores
  keep their order. The insertion sort keeps it, but only the permutation
  and the ordering are proved.
- Countdown.FlashDealsCountdown.ResetCountdown: `hours` is taken as an
  integer. A fractional argument is not modelled. The script's default of
  24 hours is a caller passing 24.
