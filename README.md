# Storefront and admin UI rules, in Dafny

This project models the client-side rules of a React storefront with an admin area.
The rules are the ones whose behaviour is fixed by the code alone:

- the shopping cart's quantity clamp, removal by id and total;
- the wishlist's removal by id and its empty message;
- the sign-up form's six validation rules and its submit gate;
- the login form's two validators and its submit-status machine;
- the admin order list: search, status filter, grouping by status, status colours, the single expanded row, and the `isUpdating` flag;
- the payment dashboard's search, fixed page size, page count and Previous / Next buttons;
- the admin product form's list editors for features, customization options and available values, and its category lookup;
- the catalogue filter and the category selector above it.

The model follows the program's structure: one module per page or component.

- **Pure parts** become functions and lemmas. These are the filters, the reduce, the validators, the lookups and the slice arithmetic.
- **State fields** that a handler replaces become fields of a class. The handlers become methods whose `ensures` give the whole new state.
- **Shared JavaScript built-ins** live in three modules:
  - `Seqs` holds `filter`, and the removal by position written as `filter((_, i) => i !== index)` or `splice(i, 1)`;
  - `Text` holds `trim`, `toLowerCase`, `includes`, `split`, and `toString` on integers;
  - `Patterns` holds the email and phone regular expressions as character-class predicates.

Each regular expression has two definitions:
- a ghost predicate (`EmailPattern`, `PhonePattern`) that states the expression's language by quantifying over where its parts begin;
- an executable, deterministic matcher (`IsEmail`, `IsPhone`).

A lemma proves each pair equal.

Modelling conventions:

- **Money** is an integer number of cents; `149.99` becomes `14999`.
- **Services reached over HTTP are parameters.** These are the sign-in call, the order and payment fetches, and the status update. A successful answer is `Some(list)` or `true`; a failed request is `None` or `false`.
- **`OrderStatus`** is the four-value enumeration of `src/services/api/orderservice.ts:43-48`.
- **Login submit.** The `await` in the login submit splits it into two steps: `BeginSubmit` up to the request, and `SigninSettled` after it. The submit button is disabled while `isSubmitting` holds (`src/components/login/login.tsx:194`), so a new submit requires that no request is pending.

Behaviour the model keeps as written:

- **Next on an empty payment list.** It moves `currentPage` from 1 to 0, because `Math.min(prev + 1, 0)` is 0. Page 0 is `slice(-10, 0)`, which is empty; Previous brings the page back to 1. `PaymentDashboard.NextOnNoPagesReachesZero` states this.
- **Sign-up keystroke handler.** It judges the new value against the form as it was before the keystroke; only the confirm-password rule reads the form. `SignupForm.Signup.HandleInputChange` states this. The submit pass re-runs every rule on the current form and is the one that decides.
- **Password order in the login form.** It tests for a blank password before the length, so eight spaces are "Password required" (`LoginForm.BlankPasswordIsRequired`).
- **Sub-category lookup.** `categoryMap[category] || []` gives `[]` for the "Select Category" placeholder `""` and for any unknown name.

## Model

| member | source | states |
|---|---|---|
| Seqs.Filter | src/pages/CartPage.tsx:40 | `filter` keeps no more elements than it was given; every kept element comes from the input and satisfies the predicate; every input element that satisfies it is kept |
| Seqs.FilterIsSubsequence | src/pages/CartPage.tsx:40 | the result of `filter` is an order-preserving subsequence of its input |
| Seqs.FilterCount | src/pages/CartPage.tsx:40 | `filter` keeps every copy of a satisfying element and no copy of any other |
| Seqs.FilterKeepsAll | src/pages/WishlistPage.tsx:33 | a predicate true of every element gives back the whole list |
| Seqs.FilterKeepsNone | src/pages/ProductPage.tsx:180-182 | a predicate true of no element gives the empty list |
| Seqs.FilterCongruent | src/pages/PaymentDashboard.tsx:125-129 | two predicates that agree on every element filter alike |
| Seqs.FilterDropsOne | src/pages/CartPage.tsx:40 | a predicate that fails at one position only removes exactly that position |
| Seqs.FilterIdempotent | src/pages/WishlistPage.tsx:33 | filtering twice with one predicate equals filtering once |
| Seqs.FilterAppend | src/pages/ProductPage.tsx:180-182 | filtering a concatenation concatenates the filtered parts |
| Seqs.RemoveAt | src/components/Admin/Product.tsx:102 | `filter((_, i) => i !== index)` is the list without position `index`; an index outside the list removes nothing |
| Seqs.RemoveAtShifts | src/components/Admin/Product.tsx:141 | after removal, positions before `index` are kept and later positions shift down by one |
| Seqs.RemoveAtCount | src/components/Admin/Product.tsx:102 | removal shortens the list by one and takes out exactly one copy of the element at `index` |
| Text.TrimStartSpec | src/components/signup/UserSignupForm.tsx:92 | the leading part of `trim` drops a whitespace-only prefix and leaves a suffix that does not start with whitespace |
| Text.TrimEndSpec | src/components/signup/UserSignupForm.tsx:92 | the trailing part of `trim` drops a whitespace-only suffix and leaves a prefix that does not end with whitespace |
| Text.TrimEmptyIffAllWhitespace | src/components/signup/UserSignupForm.tsx:92 | `value.trim()` is empty exactly when the value is whitespace only |
| Text.TrimIsInfix | src/components/Admin/Product.tsx:535 | the trimmed value occurs in the input, and when non-empty it neither starts nor ends with whitespace |
| Text.ToLower | src/pages/PaymentDashboard.tsx:126 | `toLowerCase` keeps the length |
| Text.ToLowerIdempotent | src/pages/AdminOrdersPage.tsx:116 | lower-casing twice equals lower-casing once |
| Text.EqualIgnoringCaseLower | src/pages/PaymentDashboard.tsx:126-128 | strings that differ only in the case of letters have the same lower-case form |
| Text.ContainsEmpty | src/pages/PaymentDashboard.tsx:126 | every string `includes("")` |
| Text.Split | src/components/signup/UserSignupForm.tsx:93 | `split` returns at least one part |
| Text.SplitSpec | src/components/signup/UserSignupForm.tsx:93 | `split(" ")` returns one more part than the string has spaces, and no part holds a space |
| Text.JoinSplit | src/components/signup/UserSignupForm.tsx:93 | joining the parts of `split` with the separator gives back the string |
| Text.NatToString | src/pages/AdminOrdersPage.tsx:115 | `toString` of a natural number is a non-empty run of digits with no leading zero |
| Text.NatToStringValue | src/pages/AdminOrdersPage.tsx:115 | the decimal text of `n` denotes `n` |
| Patterns.FirstIndexOf | src/components/signup/UserSignupForm.tsx:97 | the position found holds the character, and no earlier position does |
| Patterns.LastIndexOf | src/components/signup/UserSignupForm.tsx:97 | the position found holds the character, and no later position does |
| Patterns.IsEmailMatchesPattern | src/components/signup/UserSignupForm.tsx:97-99 | the executable email matcher accepts exactly the language of `^[a-zA-Z0-9._%+-]+@[a-zA-Z0-9.-]+\.[a-zA-Z]{2,}$` |
| Patterns.EmailPatternOneAt | src/components/signup/UserSignupForm.tsx:97 | every accepted email has exactly one `@` |
| Patterns.EmailPatternNoWhitespace | src/components/signup/UserSignupForm.tsx:97 | every accepted email is free of whitespace |
| Patterns.EmailPatternNotBlank | src/components/signup/UserSignupForm.tsx:97-99 | an accepted email is never whitespace only, so the "required" test never hides a match |
| Patterns.IsPhoneMatchesPattern | src/components/signup/UserSignupForm.tsx:113-114 | the executable phone matcher accepts exactly the language of `^\+?([0-9]{2})[-. ]?([0-9]{4})[-. ]?([0-9]{4})$` |
| Patterns.PhonePatternLength | src/components/signup/UserSignupForm.tsx:113 | an accepted phone number has 10 to 13 characters |
| CartPage.Reduce | src/pages/CartPage.tsx:43 | the left fold of price × quantity started at `acc` equals `acc` plus the sum of the line totals |
| CartPage.SumAppend | src/pages/CartPage.tsx:43 | the sum over two lists laid end to end is the sum of their sums |
| CartPage.ClampedQuantity | src/pages/CartPage.tsx:33 | `Math.max(1, q + change)` is at least 1, at least `q + change`, and one of the two |
| CartPage.UpdatedQuantities | src/pages/CartPage.tsx:30-36 | the length is kept; lines with another id are unchanged; a matched line changes only its quantity, to the clamped value |
| CartPage.DecrementAtOneStays | src/pages/CartPage.tsx:33 | minus on a line with quantity 1 leaves the line as it was |
| CartPage.IncrementThenDecrement | src/pages/CartPage.tsx:30-36 | plus then minus on one id restores the list when every quantity is at least 1 |
| CartPage.UpdateKeepsQuantitiesPositive | src/pages/CartPage.tsx:33 | `updateQuantity` keeps every quantity at 1 or more |
| CartPage.RemoveDropsExactlyId | src/pages/CartPage.tsx:40 | `removeItem` keeps every copy of each line with another id, in order, and drops every line with the id |
| CartPage.RemoveIdempotentAndAbsent | src/pages/CartPage.tsx:40 | removing twice is removing once; an id not in the cart leaves it unchanged |
| CartPage.TotalIsSum | src/pages/CartPage.tsx:43 | `total` is the sum of price × quantity, and 0 for an empty cart |
| CartPage.RemoveUniqueId | src/pages/CartPage.tsx:40 | removing an id held by one line only gives the lines before and after that line |
| CartPage.RemoveUniqueLowersTotal | src/pages/CartPage.tsx:40-43 | removing that line lowers the total by exactly its price × quantity |
| CartPage.Cart.constructor | src/pages/CartPage.tsx:5-27 | the page starts with exactly the three demonstration lines, all quantities positive, totalling 2 × 149.99 + 89.99 + 199.99 in cents |
| CartPage.Cart.UpdateQuantity | src/pages/CartPage.tsx:29-37 | the new list is the updated list, and quantities stay positive |
| CartPage.Cart.RemoveItem | src/pages/CartPage.tsx:39-41 | the new list is the old one without the id, and quantities stay positive |
| CartPage.Cart.CurrentTotal | src/pages/CartPage.tsx:43 | the rendered total is the sum of the line totals |
| WishlistPage.RemoveKeepsOthers | src/pages/WishlistPage.tsx:33 | removal never lengthens the list, keeps order, leaves no item with the id, and keeps every other item unchanged with its multiplicity |
| WishlistPage.RemoveIdempotent | src/pages/WishlistPage.tsx:33 | removing an id twice is removing it once |
| WishlistPage.RemoveAbsentId | src/pages/WishlistPage.tsx:33 | an id no item has leaves the list unchanged |
| WishlistPage.EmptyAfterRemoval | src/pages/WishlistPage.tsx:73 | the empty message shows after a removal exactly when every item had that id |
| WishlistPage.Wishlist.constructor | src/pages/WishlistPage.tsx:5-30 | the page starts with exactly the four demonstration items and no empty message |
| WishlistPage.Wishlist.RemoveFromWishlist | src/pages/WishlistPage.tsx:32-34 | the new list is the old one without the id |
| SignupForm.FullNameErrorMeaning | src/components/signup/UserSignupForm.tsx:91-95 | a blank name is "Full name required"; otherwise the name passes exactly when its trimmed text holds a space, and is "First and last name" when it does not |
| SignupForm.FullNameHasTwoParts | src/components/signup/UserSignupForm.tsx:93 | a name passes exactly when its trimmed text has a space strictly inside it |
| SignupForm.EmailErrorMeaning | src/components/signup/UserSignupForm.tsx:96-101 | blank is "Email required"; the value passes exactly when it matches the email expression; anything else is "Invalid email" |
| SignupForm.PasswordError | src/components/signup/UserSignupForm.tsx:102-107 | the password passes exactly when it has at least 8 characters, an upper-case letter and a digit; otherwise the first failing check is reported |
| SignupForm.ConfirmPasswordError | src/components/signup/UserSignupForm.tsx:108-111 | passes exactly when equal to the password, else "Passwords don't match" |
| SignupForm.PhoneErrorMeaning | src/components/signup/UserSignupForm.tsx:112-116 | passes exactly when empty or matching the phone expression, else "Invalid phone" |
| SignupForm.TermsError | src/components/signup/UserSignupForm.tsx:117 | passes exactly when the terms are accepted |
| SignupForm.ValueOf | src/components/signup/UserSignupForm.tsx:143 | `formData[key]` has the kind of value the field holds: text, or a checkbox state |
| SignupForm.WithValue | src/components/signup/UserSignupForm.tsx:127 | `{ ...prev, [name]: value }` sets that field to the value and leaves every other field as it was |
| SignupForm.ErrorsOverSpec | src/components/signup/UserSignupForm.tsx:142-144 | visiting a list of keys gives a record with exactly those keys, each holding its field's rule result |
| SignupForm.SubmitErrors | src/components/signup/UserSignupForm.tsx:140-144 | the submit record has all six fields, each holding its rule's result on the current form |
| SignupForm.SubmitErrorsEmptyIffValid | src/components/signup/UserSignupForm.tsx:148 | every entry of the submit record is `""` exactly when every rule passes |
| SignupForm.AllValidMeaning | src/components/signup/UserSignupForm.tsx:91-117 | the form passes exactly when it has a two-part name, a matching email, a strong password, an equal confirmation, an empty or matching phone, and accepted terms |
| SignupForm.SubmitBlockers | src/components/signup/UserSignupForm.tsx:140-150 | unaccepted terms or a password shorter than 8 characters always block success |
| SignupForm.CollectErrors | src/components/signup/UserSignupForm.tsx:140-144 | the `forEach` over the keys builds exactly the submit record |
| SignupForm.Signup.constructor | src/components/signup/UserSignupForm.tsx:64-87 | an empty form, all errors `""`, modal closed |
| SignupForm.Signup.HandleInputChange | src/components/signup/UserSignupForm.tsx:122-134 | stores the value and records that field's rule result, judged against the form before the event |
| SignupForm.Signup.HandleSubmit | src/components/signup/UserSignupForm.tsx:136-153 | the errors become the submit record; the modal opens exactly when every rule passes (and stays open if it was open) |
| SignupForm.Signup.CloseSuccessModal | src/components/signup/UserSignupForm.tsx:320 | closes the modal and changes nothing else |
| LoginForm.ValidateEmailMeaning | src/components/login/login.tsx:24-29 | blank is "Email required"; a non-matching value is "Invalid email format"; a value passes exactly when it matches the email expression |
| LoginForm.ValidatePasswordMeaning | src/components/login/login.tsx:31-35 | blank is "Password required"; a non-blank value under 8 characters is "Password too short"; otherwise it passes |
| LoginForm.BlankPasswordIsRequired | src/components/login/login.tsx:32-33 | eight spaces are "Password required", because the blank test comes first |
| LoginForm.EmailRulesAgree | src/components/login/login.tsx:25-28 | the login and sign-up forms accept the same email addresses |
| LoginForm.SignupPasswordPassesLogin | src/components/login/login.tsx:31-35 | every password the sign-up rule accepts passes the login rule |
| LoginForm.FinalStatusMeaning | src/components/login/login.tsx:63-80 | a submit ends in success exactly when the email matches, the password is non-blank and at least 8 long, and the request succeeds; a failing validator always ends in error |
| LoginForm.Login.constructor | src/components/login/login.tsx:10-22 | an empty form, no errors, not submitting, status idle |
| LoginForm.Login.HandleInputChange | src/components/login/login.tsx:37-47 | stores the value and recomputes that field's error only, with that field's validator |
| LoginForm.Login.BeginSubmit | src/components/login/login.tsx:51-80 | both errors become the validators' results; the request is sent exactly when both pass; otherwise status is error and submitting has ended |
| LoginForm.Login.SigninSettled | src/components/login/login.tsx:65-76 | status becomes success or error as the request settled, and submitting ends |
| LoginForm.Login.HandleSubmit | src/components/login/login.tsx:49-83 | a whole submit: errors as computed, request sent exactly when both pass, final status as `FinalStatus`, never left submitting |
| AdminOrders.UnfilteredListsAll | src/pages/AdminOrdersPage.tsx:113-126 | an empty search with filter ALL lists every order |
| AdminOrders.FilteredOrdersExact | src/pages/AdminOrdersPage.tsx:113-126 | the list keeps order and holds exactly the orders matching both the search and the status filter |
| AdminOrders.FilteredOrdersHaveStatus | src/pages/AdminOrdersPage.tsx:123 | with a status filter, every listed order has that status |
| AdminOrders.FoundById | src/pages/AdminOrdersPage.tsx:115 | searching for an order's decimal id finds it |
| AdminOrders.IntToStringHasNoLetter | src/pages/AdminOrdersPage.tsx:115 | an id's decimal text holds no letter |
| AdminOrders.IdMatchIsCaseFree | src/pages/AdminOrdersPage.tsx:115 | a term found in an id's text has no case variant other than itself |
| AdminOrders.SearchIgnoresCase | src/pages/AdminOrdersPage.tsx:114-121 | terms that differ only in letter case match the same orders |
| AdminOrders.OrdersByStatusBuckets | src/pages/AdminOrdersPage.tsx:128-131 | there is one bucket per status; each holds only orders of its status, in list order |
| AdminOrders.BucketsPartition | src/pages/AdminOrdersPage.tsx:128-131 | the four buckets together hold every listed order exactly once, and their sizes add up to the list's length |
| AdminOrders.StatusColorsDistinct | src/pages/AdminOrdersPage.tsx:88-101 | the four statuses get four different class strings, none of them the default grey |
| AdminOrders.ToggleOpensOnlyClicked | src/pages/AdminOrdersPage.tsx:196 | after a click only the clicked row can be open, and it is open exactly when it was closed; two clicks from none restore none |
| AdminOrders.OrdersPage.constructor | src/pages/AdminOrdersPage.tsx:52-58 | no orders, loading, no error, nothing expanded, empty search, filter ALL, nothing updating |
| AdminOrders.OrdersPage.ToggleExpanded | src/pages/AdminOrdersPage.tsx:196 | the expanded row toggles, and nothing else changes |
| AdminOrders.OrdersPage.SetSearchTerm | src/pages/AdminOrdersPage.tsx:155 | the term is stored and the list shown is filtered with it; the orders, the filter, the expanded row, loading, the error and `isUpdating` are unchanged |
| AdminOrders.OrdersPage.SetStatusFilter | src/pages/AdminOrdersPage.tsx:161 | the filter is stored and the list shown is filtered with it; the orders, the term, the expanded row, loading, the error and `isUpdating` are unchanged |
| AdminOrders.OrdersPage.FetchOrders | src/pages/AdminOrdersPage.tsx:64-74 | a successful fetch replaces the orders, a failed one sets the load error; loading ends either way |
| AdminOrders.OrdersPage.HandleStatusUpdate | src/pages/AdminOrdersPage.tsx:76-86 | a successful update fetches again, a failed one sets the update error; `isUpdating` is cleared either way |
| PaymentDashboard.FilteredPaymentsExact | src/pages/PaymentDashboard.tsx:125-129 | the list keeps order and holds exactly the payments whose lower-cased email, Stripe id or status contains the lower-cased term |
| PaymentDashboard.EmptySearchKeepsAll | src/pages/PaymentDashboard.tsx:125-129 | an empty search keeps every payment |
| PaymentDashboard.SearchIgnoresCase | src/pages/PaymentDashboard.tsx:125-129 | terms that differ only in letter case list the same payments |
| PaymentDashboard.TotalPages | src/pages/PaymentDashboard.tsx:136 | `Math.ceil(n / 10)` is the least page count whose pages of 10 hold `n` rows |
| PaymentDashboard.NoPagesIffEmpty | src/pages/PaymentDashboard.tsx:136 | there are no pages exactly when nothing matches |
| PaymentDashboard.SliceIndex | src/pages/PaymentDashboard.tsx:131-134 | a `slice` bound is clamped into the list, and an in-range bound is kept |
| PaymentDashboard.PageContents | src/pages/PaymentDashboard.tsx:131-134 | a valid page is the run of rows from `(page - 1) * 10`, cut at the list's end |
| PaymentDashboard.PageSizeBounded | src/pages/PaymentDashboard.tsx:131-134 | no page holds more than 10 rows |
| PaymentDashboard.PagesOutsideRangeAreEmpty | src/pages/PaymentDashboard.tsx:131-134 | a page past the last, or page 0, is empty |
| PaymentDashboard.FirstPagesArePrefix | src/pages/PaymentDashboard.tsx:131-136 | pages 1 to k laid end to end are the first 10 × k rows |
| PaymentDashboard.PagesCoverFiltered | src/pages/PaymentDashboard.tsx:131-136 | pages 1 to `totalPages` laid end to end give back the filtered list |
| PaymentDashboard.PreviousPage | src/pages/PaymentDashboard.tsx:236 | `Math.max(p - 1, 1)` is never below 1, and is `p - 1` when `p > 1` |
| PaymentDashboard.NextPage | src/pages/PaymentDashboard.tsx:243 | `Math.min(p + 1, totalPages)` is never above `totalPages`, and is `p + 1` when `p < totalPages` |
| PaymentDashboard.NextOnNoPagesReachesZero | src/pages/PaymentDashboard.tsx:243 | with nothing to list, Next goes from page 1 to page 0, and Previous goes back to 1 |
| PaymentDashboard.Dashboard.constructor | src/pages/PaymentDashboard.tsx:37-46 | no payments, loading, page 1, empty search |
| PaymentDashboard.Dashboard.Previous | src/pages/PaymentDashboard.tsx:259 | the page becomes the Previous clamp of the old page, and nothing else changes |
| PaymentDashboard.Dashboard.Next | src/pages/PaymentDashboard.tsx:266 | the page becomes the Next clamp against the current page count, and nothing else changes |
| PaymentDashboard.Dashboard.SetSearchTerm | src/pages/PaymentDashboard.tsx:168 | the term is stored and the page number is kept |
| PaymentDashboard.Dashboard.FetchPayments | src/pages/PaymentDashboard.tsx:54-65 | a successful fetch replaces the payments, a failed one keeps them; loading ends either way |
| AdminProductForm.SubCategoriesLookup | src/components/Admin/Product.tsx:36-52 | each of the three categories offers five sub-categories; any other value, `""` included, offers none |
| AdminProductForm.FeatureFieldRoundTrip | src/components/Admin/Product.tsx:83-86 | setting a feature field then reading it gives the value; the other fields are kept; putting the old value back restores the feature |
| AdminProductForm.FeatureChangeIsLocal | src/components/Admin/Product.tsx:81-88 | a feature edit keeps the length and every other feature, and changes only the one field of the edited feature |
| AdminProductForm.RemoveFeatureDropsOne | src/components/Admin/Product.tsx:99-104 | `removeFeature` drops exactly the feature at the index; an index outside the list changes nothing |
| AdminProductForm.ApplyEditRoundTrip | src/components/Admin/Product.tsx:113-116 | an option edit then reads back as set, and applying the old value undoes it |
| AdminProductForm.OptionChangeIsLocal | src/components/Admin/Product.tsx:107-118 | an option edit keeps the length and every other option, and is undone on the edited one by restoring its old value |
| AdminProductForm.RemoveOptionDropsOne | src/components/Admin/Product.tsx:138-143 | `removeCustomizationOption` drops exactly the option at the index; an index outside the list changes nothing |
| AdminProductForm.ValuesAfterEnterMeaning | src/components/Admin/Product.tsx:531-544 | Enter on whitespace-only input changes nothing; otherwise it appends the trimmed value, duplicates allowed |
| AdminProductForm.EnteredValueIsTrimmed | src/components/Admin/Product.tsx:535-536 | an appended value is non-empty and neither starts nor ends with whitespace |
| AdminProductForm.SpliceRemovesOne | src/components/Admin/Product.tsx:516-520 | `splice(valueIndex, 1)` deletes exactly that value and shifts the later ones down |
| AdminProductForm.ProductForm.constructor | src/components/Admin/Product.tsx:55-67 | the empty form, active and not customizable, no sub-categories |
| AdminProductForm.ProductForm.HandleCategoryChange | src/components/Admin/Product.tsx:71-78 | sets the category and the sub-categories the lookup gives |
| AdminProductForm.ProductForm.HandleFeatureChange | src/components/Admin/Product.tsx:81-88 | only the features change, by the one-field edit at the index |
| AdminProductForm.ProductForm.AddFeature | src/components/Admin/Product.tsx:91-96 | appends exactly one feature with empty text and the ✨ icon, and keeps the earlier ones |
| AdminProductForm.ProductForm.RemoveFeature | src/components/Admin/Product.tsx:99-104 | only the features change, by removal at the index |
| AdminProductForm.ProductForm.HandleCustomizationChange | src/components/Admin/Product.tsx:107-118 | only the options change, by the one-field edit at the index |
| AdminProductForm.ProductForm.AddCustomizationOption | src/components/Admin/Product.tsx:121-135 | appends exactly one option with the documented defaults |
| AdminProductForm.ProductForm.RemoveCustomizationOption | src/components/Admin/Product.tsx:138-143 | only the options change, by removal at the index |
| AdminProductForm.ProductForm.EnterAvailableValue | src/components/Admin/Product.tsx:531-544 | whitespace-only input leaves the form as it was; otherwise the trimmed value is appended to that option's values |
| AdminProductForm.ProductForm.RemoveAvailableValue | src/components/Admin/Product.tsx:516-520 | that option's values lose exactly the value at `valueIndex` |
| ProductPage.AllShowsEverything | src/pages/ProductPage.tsx:177-179 | "All" shows the product list unchanged |
| ProductPage.FilterProductsExact | src/pages/ProductPage.tsx:180-182 | any other selection keeps order and shows exactly the products whose category or subcategory is the selection |
| ProductPage.NoMatchShowsNothing | src/pages/ProductPage.tsx:180-182 | a selection no product has shows nothing |
| ProductPage.BraceletsShowNothing | src/pages/ProductPage.tsx:176-183 | the "Bracelets" button shows an empty grid over the sample products |
| ProductPage.JewelryShowsFirstThree | src/pages/ProductPage.tsx:176-183 | the "Jewelry" tile shows the first three sample products |
| ProductPage.Catalogue.constructor | src/pages/ProductPage.tsx:172 | the selection starts at "All" and shows every sample product |
| ProductPage.Catalogue.OnCategoryChange | src/pages/ProductPage.tsx:199 | the selection is stored and the grid is filtered with it |
| ProductCategories.Emitted | src/components/layout/ProductCategories.tsx:36 | `categoryName \|\| "All"` is "All" exactly for null, `""` or "All", and otherwise the name itself |
| ProductCategories.TileClickOutcome | src/components/layout/ProductCategories.tsx:54-58 | clicking the active tile clears it and emits "All"; clicking another tile activates it and emits its name |
| ProductCategories.DoubleClickRestores | src/components/layout/ProductCategories.tsx:54-58 | two clicks on a tile from no selection come back to none, the second emitting "All" |
| ProductCategories.FindCategory | src/components/layout/ProductCategories.tsx:77-78 | `find` returns the first category with the name, or none |
| ProductCategories.ShownSubcategoriesExact | src/components/layout/ProductCategories.tsx:75-79 | with a tile active, its own subcategories are listed; with none active, nothing is |
| ProductCategories.CategorySelector.constructor | src/components/layout/ProductCategories.tsx:33 | no tile is active and nothing has been emitted |
| ProductCategories.CategorySelector.HandleCategoryClick | src/components/layout/ProductCategories.tsx:35-39 | stores the clicked name and emits it, or "All" |
| ProductCategories.CategorySelector.ClickTile | src/components/layout/ProductCategories.tsx:54-58 | the active tile toggles as the click target says and the emitted value is appended |
| ProductCategories.CategorySelector.ClickSubcategory | src/components/layout/ProductCategories.tsx:83 | emits the subcategory and leaves the active tile unchanged |

## Left out

- Text.ToLower: case mapping covers ASCII letters only. `toLowerCase` also maps other Unicode letters, which would need Unicode case tables.
- String lengths count code points, where JavaScript counts UTF-16 code units. They differ only on characters outside the Basic Multilingual Plane, for example in the 8-character password test.
- Prices are integer cents, not the JavaScript floating-point values the pages hold. The `$` display and `toFixed` formatting are not modelled.
- AdminProductForm.CustomizationOption: `minValue`, `maxValue` and `additionalPrice` are integers. The form stores `Number(e.target.value)`, which can be fractional or `NaN` for text that is not a number; those values are not captured.
- The payment statistics (`calculateStats`), date formatting and dashboard revenue figures are not part of this model. They depend on the clock, the locale and floating-point division.
- The product image upload and its preview URL are not part of this model. They call an external upload service and browser object URLs.
- The product form's submit (`createProduct`) and its plain field setters (name, price, description, the two checkboxes) are not part of this model. The submit is a service call with no local logic; the setters only copy one input into one field.
- Notifications (`toast`), password-visibility toggles, the clearing of the "Add value" input box after Enter (`input.value = ''`), the product detail dialog, navigation and all presentational markup are not modelled.
- AdminProductForm.ProductForm.HandleFeatureChange: requires an index inside the list, as every caller passes its own row's index. An index past the end would make JavaScript grow the array with a hole; that is not modelled.
- AdminProductForm.ProductForm.HandleCustomizationChange: requires an in-range index, for the same reason.
- The edits on a copied array (`updated[index] = …`, `splice`) are modelled as sequence updates. The copy is never shared, so no aliasing is lost.
- `categoryMap` lookups of inherited object keys such as `"toString"` are not modelled. The model treats every name outside the three keys as unknown.
- LoginForm.Login.BeginSubmit: requires no pending request, because the submit button is disabled while `isSubmitting` holds. Overlapping submits are not modelled.
- AdminOrders.OrdersPage.HandleStatusUpdate: the `isUpdating` value is modelled only around one update. Overlapping updates on different rows are not modelled.
- The order and payment services, the sign-in call and the HTTP layer are not part of this model. Their answers are parameters.
