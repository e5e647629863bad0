# ReadAfrik checkout, handlers and catalogue filters in Dafny

This project models the working core of the ReadAfrik web site, a Next.js
storefront and content site for an educational brand. It covers:

- the checkout pipeline:
  - the payment helpers of `src/lib/paystack.ts`;
  - the initialize endpoint, `POST /api/payment/initialize`;
  - the verify endpoint, `GET /api/payment/verify`;
  - the callback page that settles in `success` or `failed`;
  - the `PaymentModal` checkout component;
- the two mail-sending handlers, event registration and newsletter
  subscription, and the email-format rule they share with the checkout;
- the `Header` navigation rules: which entry is highlighted, and the mobile
  menu;
- the search and selector filters of the fourteen catalogue pages.

The server handlers are pure functions. Each takes the request body, the
environment variables, and the replies of the payment provider and the mail
dispatcher as inputs. Each returns an outcome record:

- the HTTP response;
- the provider calls it made;
- the emails it attempted.

The client components that change state step by step are classes whose
methods are the React handlers:

- the callback page (`PaymentCallback.CallbackPage`);
- the checkout modal (`PaymentModal.Modal`);
- the store's add-to-cart button (`StorePage.Store`);
- the mobile menu (`Header.MobileMenu`).

The catalogue pages share one generic `Filter` with its own specification:

- membership;
- order, as a subsequence;
- counts.

The JavaScript string helpers they use (`toLowerCase`, `includes`,
`startsWith`) are modelled in `Text`.

A clock reading (`Date.now()`), a random draw (`Math.random()`), the ISO
date, the provider's replies and whether an email dispatch throws are all
parameters. Amounts are exact reals.

## Notes on the code's behaviour

- A provider failure thrown by `verifyPaystackPayment` (a network error or a
  non-OK status) reaches the verify route's outer `catch`, which answers 500
  with "An error occurred while verifying payment" (`PaymentVerify.Verify`).
- The initialize route tests `!amount`, so an amount of 0 is rejected
  exactly like a missing one (`PaymentInitialize.ZeroAmountIsMissing`).
- On a verified payment the admin notice is sent in the same `try` as the
  customer's confirmation, so a failing confirmation also suppresses the
  admin notice (`PaymentVerify.OrderEmails`).
- The verifier keeps no record of references it has handled. Every call for
  a successful transaction attempts the confirmation emails again. This is
  visible in `PaymentVerify.Verify`: its result depends only on its inputs.

## Model

| member | source | states |
|---|---|---|
| Text.Lower | src/app/store/page.tsx:123-124 | `toLowerCase`: same length, every character folded to lower case one by one |
| Text.LowerIdempotent | src/app/store/page.tsx:123-124 | folding an already folded string changes nothing |
| Text.IncludesIff | src/app/store/page.tsx:123-124 | `includes` is true exactly when the needle occurs at some position of the haystack |
| Text.Includes | src/app/store/page.tsx:123-124 | `includes` never finds a needle longer than the haystack, always finds the empty needle, and finds every prefix |
| Text.IncludesEmpty | src/app/store/page.tsx:123-124 | the empty needle is found in every string |
| Text.IncludesSlice | src/app/store/page.tsx:123-124 | every slice of a string is found in it |
| Text.Decimal | src/lib/paystack.ts:32 | the decimal rendering of a number is non-empty and all digits |
| Text.ParseDecimalOfDecimal | src/lib/paystack.ts:32 | the decimal rendering reads back as the same number |
| Text.DecimalInjective | src/lib/paystack.ts:32 | different numbers never render alike |
| EmailFormat.ValidEmailIffPattern | src/app/api/payment/initialize/route.ts:18-19 | the scan used everywhere accepts exactly the strings of the shape `^[^\s@]+@[^\s@]+\.[^\s@]+$` (non-empty local part, one '@', an inner dot after it, no whitespace) |
| EmailFormat.ValidEmail | src/app/api/register-event/route.ts:18-19 | an accepted address has at least 5 characters and its first '@' is its only one |
| EmailFormat.ValidEmailRejects | src/app/api/subscribe/route.ts:17-24 | an accepted address has at least 5 characters and a '.' after its '@'; a string without '@' is rejected |
| EmailFormat.SampleAddressIsValid | src/components/PaymentModal.tsx:55-56 | "a@b.com" is accepted |
| Paystack.RandomSuffix | src/lib/paystack.ts:31 | the random part of the reference lies in 0..999999 |
| Paystack.GeneratePaymentReference | src/lib/paystack.ts:29-33 | the reference reads back as the clock reading and the random suffix drawn, the suffix being at most 999999 |
| Paystack.ParseReferenceRoundTrip | src/lib/paystack.ts:29-33 | the text `READAFRIK-<timestamp>-<suffix>` reads back as exactly the timestamp and suffix it was made from |
| Paystack.PaymentReference | src/lib/paystack.ts:32 | the reference starts with `READAFRIK-` and reads back as exactly its timestamp and suffix |
| Paystack.PaymentReferenceInjective | src/lib/paystack.ts:29-33 | distinct (timestamp, suffix) pairs never give the same reference |
| Paystack.ConvertToKobo | src/lib/paystack.ts:39-41 | the kobo amount is within half a kobo of amount × 100 (`Math.round`) |
| Paystack.ConvertFromKobo | src/lib/paystack.ts:46-48 | the major amount times 100 is the kobo amount |
| Paystack.KoboRoundTrip | src/lib/paystack.ts:39-48 | an amount with at most two decimals survives the trip to kobo and back |
| Paystack.KoboFromToRoundTrip | src/lib/paystack.ts:39-48 | a whole number of kobo survives the trip to the major unit and back |
| Paystack.KoboRoundTripError | src/lib/paystack.ts:39-48 | for any amount the trip to kobo and back is off by at most 0.005 |
| Paystack.VerifyPaystackPayment | src/lib/paystack.ts:88-111 | the helper returns the parsed envelope exactly when the reply is OK and is JSON; otherwise it throws |
| Paystack.FormatCurrency | src/lib/paystack.ts:116-135 | an unknown code gives the bare two-decimal amount; a known one gives its symbol followed by the grouped amount |
| Paystack.SupportedCurrency | src/lib/paystack.ts:116-122 | the table has an entry exactly for NGN, GHS, ZAR, USD and KES, each with a non-empty name and symbol |
| Paystack.LookupAsWritten | src/lib/paystack.ts:128 | the plain-object lookup returns the table's own entry exactly for the five codes; every `Object.prototype` key yields an inherited value and no other code does |
| Paystack.FormatCurrencyDefaultsToNaira | src/lib/paystack.ts:127 | with no currency argument the naira sign leads |
| Paystack.FormatCurrencyAsWritten | src/lib/paystack.ts:127-135 | as written, an `Object.prototype` key gives "undefined" before the amount; it agrees with the corrected version on every other code |
| Paystack.InheritedKeyGetsUndefinedSymbol | src/lib/paystack.ts:128-130 | for the code "toString" the code as written gives "undefined10.00", where "10.00" was evidently meant |
| PaymentInitialize.BuildMetadata | src/app/api/payment/initialize/route.ts:33-38 | the metadata has the given cart, or `[]`; the name, or "Guest"; the phone, or ""; and the payment date |
| PaymentInitialize.Initialize | src/app/api/payment/initialize/route.ts:4-91 | checks run in order: unreadable body 500, missing email or amount 400, bad email 400 (none of these draws a reference or calls the provider), missing secret 500. Otherwise exactly one provider call carries the drawn reference. A refusing provider gives 400 with its own message, or "Payment initialization failed" when it gives none. A thrown call, or an accepted reply without data, gives 500 "An error occurred while initializing payment". The reply is 200 exactly when the provider answers with a truthy status and data, and it then returns that reference and the authorization URL and access code. The status is always 200, 400 or 500 |
| PaymentInitialize.ZeroAmountIsMissing | src/app/api/payment/initialize/route.ts:10-15 | an amount of 0 is answered exactly like a missing amount: 400 "Email and amount are required" |
| PaymentInitialize.ProviderCallShape | src/app/api/payment/initialize/route.ts:50-65 | at most one provider call, only for a valid intent with the secret set; it carries the fixed channels, the amount in kobo, the buyer's email, "NGN" when no currency is configured, and a well-formed reference |
| PaymentInitialize.ProviderRequest | src/app/api/payment/initialize/route.ts:50-65 | the provider request carries the buyer's email, the drawn reference, the amount rounded to the nearest kobo, the metadata built by `BuildMetadata` (cart, name or "Guest", phone or "", payment date), the four channels, the configured currency or "NGN" when none is set, and a callback URL ending in `/payment/callback` (on `http://localhost:3000` when no site URL is set) |
| PaymentInitialize.SampleInitialization | src/app/api/payment/initialize/route.ts:26-82 | `{email: "a@b.com", amount: 15}` is answered 200. It is sent as 1500 kobo with the default metadata, under a reference that reads back as the clock and random draw |
| PaymentVerify.Normalize | src/app/api/payment/verify/route.ts:48-62 | the payment record keeps the reference, status, currency, dates and channel. The amount is the kobo amount / 100, and the customer email is copied. Name, phone and cart come from the metadata, with the defaults "Guest", "" and `[]` |
| PaymentVerify.OrderEmails | src/app/api/payment/verify/route.ts:86-109 | the customer's "Order Confirmation - <ref>" goes first. The admin's "New Order: <ref>" follows exactly when ADMIN_EMAIL is set and the first dispatch did not throw |
| PaymentVerify.Verify | src/app/api/payment/verify/route.ts:5-84 | no reference gives 400 and no secret gives 500, neither calling the provider. Otherwise it makes one provider call. A thrown helper gives 500 and a falsy envelope status 400. A non-success transaction gives 200 `{success:false}` with no email. A success gives 200 with the record's status "success" and the order emails. Emails are attempted only for a verified payment |
| PaymentVerify.EmailFailureIsInvisible | src/app/api/payment/verify/route.ts:64-75 | whether the confirmation email throws never changes the response |
| PaymentVerify.SuccessfulTransactionIsVerified | src/app/api/payment/verify/route.ts:47-75 | a "success" transaction is answered 200 with its normalised record (amount = kobo / 100), and the customer's confirmation is attempted |
| PaymentVerify.UnsuccessfulTransactionSendsNothing | src/app/api/payment/verify/route.ts:38-45 | any other status is answered 200 `{success:false, status, message:"Payment was not successful"}` and no email is attempted |
| PaymentCallback.ClientView | src/app/payment/callback/page.tsx:33-36 | the page reads each endpoint reply as: success with payment exactly for a verified reply, the message for a non-success reply, no message for an `{error}` reply |
| PaymentCallback.CallbackPage.constructor | src/app/payment/callback/page.tsx:18-20 | the page starts loading, with no details, no error and no fetch issued |
| PaymentCallback.CallbackPage.StartVerification | src/app/payment/callback/page.tsx:24-33 | no reference goes straight to `failed` with "No payment reference found" and no fetch. Otherwise exactly one fetch is issued for that reference and the page stays loading |
| PaymentCallback.CallbackPage.CompleteVerification | src/app/payment/callback/page.tsx:34-47 | the page always leaves `loading`. It reaches `success` exactly when the reply has success and a payment, and keeps that payment. Otherwise it is `failed` with the reply's message, or "Payment verification failed", or for a thrown fetch its message, or "An error occurred while verifying your payment". No new fetch is issued |
| PaymentCallback.CallbackPage.ShowsSuccessView | src/app/payment/callback/page.tsx:77 | on a consistent page the success view shows exactly in the `success` status, and never with a verification pending |
| PaymentCallback.VerifiedReferenceShowsSuccess | src/app/payment/callback/page.tsx:22-51 | a reference the provider reports paid leads through the verify endpoint to the success view with the endpoint's record (1500 kobo shows 15.00), after exactly one fetch |
| PaymentCallback.ErrorReplyShowsDefaultMessage | src/app/payment/callback/page.tsx:39-42 | an endpoint error reply shows `failed` with the page's default message and no details |
| PaymentModal.Modal.constructor | src/components/PaymentModal.tsx:29-37 | the modal starts idle with an empty form, no error and nothing sent |
| PaymentModal.Modal.HandleInputChange | src/components/PaymentModal.tsx:39-45 | the edited field takes the value, the other fields keep theirs, and the error is cleared |
| PaymentModal.Modal.HandlePayment | src/components/PaymentModal.tsx:47-126 | an empty email or name gives "Please fill in all required fields" and a bad email "Please enter a valid email address", with nothing sent. A valid form posts exactly one request with the price and cart. Any failure before the popup clears processing and shows: the thrown message or "Payment failed. Please try again."; the server's error or "Payment initialization failed"; or "Payment system not configured" without a public key. Otherwise the popup opens with the server's reference and the price in kobo. Every popup ever opened carries a checked email and a name |
| PaymentModal.Modal.Popup | src/components/PaymentModal.tsx:98-112 | the popup gets the price in kobo and the given reference, with the currency "NGN" and the channels card/bank/ussd/mobile_money that `initializePaystack` fills in |
| PaymentModal.Modal.PayButtonDisabled | src/components/PaymentModal.tsx:294 | the button is disabled while a payment is in flight, and an enabled button always has email and name filled in |
| PaymentModal.Modal.PopupClosed | src/components/PaymentModal.tsx:117-119 | closing the popup clears processing and changes nothing else |
| PaymentModal.Modal.VerifyPayment | src/components/PaymentModal.tsx:128-151 | one verify fetch for the reported reference. A success clears the cart and shows success. Anything else keeps the cart and shows the reply's message or "Payment verification failed". Processing is cleared either way |
| PaymentModal.EditAfterFailureEnablesPay | src/components/PaymentModal.tsx:39-45 | after a failed attempt, filling in email and name re-enables the pay button with the error cleared |
| PaymentModal.InitClientView | src/components/PaymentModal.tsx:85-89 | the modal reads success exactly for a started transaction, with its reference, and the error of an error reply |
| PaymentModal.CheckoutOpensPopupWithServerReference | src/components/PaymentModal.tsx:47-120 | a checkout through the initialize endpoint opens one popup with the reference the server drew and the same kobo amount the server sent the provider, and the modal stays busy |
| PaymentModal.VerifyClientView | src/components/PaymentModal.tsx:130-145 | the modal reads success exactly for a verified reply, the message of a non-success reply, and none for an error reply |
| PaymentModal.AbandonedPaymentKeepsCart | src/components/PaymentModal.tsx:128-151 | a transaction the provider reports not successful leaves the cart intact and shows "Payment was not successful" |
| Mail.SendInOrder | src/app/api/register-event/route.ts:44-68 | defines the effect of sequential awaited sends: a failure index inside the list marks the run as thrown with the mails up to and including that one attempted, any other index attempts every mail; in every case the attempted mails are a prefix of the list |
| RegisterEvent.PhoneShown | src/app/api/register-event/route.ts:62 | the administrator sees the phone, or "Not provided"; never an empty value |
| RegisterEvent.AdminText | src/app/api/register-event/route.ts:66 | the administrator's text body ends with the phone line |
| RegisterEvent.RegistrationMails | src/app/api/register-event/route.ts:44-68 | the confirmation "Registration Confirmed: <title>" to the registrant goes first. The notice "New Event Registration: <title>" to ADMIN_EMAIL follows exactly when it is set |
| RegisterEvent.Register | src/app/api/register-event/route.ts:4-84 | checks run in order: unreadable body 500, missing name, email or title 400, bad email 400, each sending nothing. A valid registration attempts the confirmation first, and the administrator only when set. The reply is success exactly when the input is valid and no dispatch throws, and then every email was sent. A dispatch that throws gives 500 "Failed to process registration. Please try again." after the emails attempted up to and including it |
| RegisterEvent.ValidRegistration | src/app/api/register-event/route.ts:10-24 | a registration that passes names a person and an event, and has an address of at least 5 characters containing '@' |
| RegisterEvent.AdminNoticeOnlyWithAddress | src/app/api/register-event/route.ts:52-68 | without ADMIN_EMAIL one email goes out, with it two |
| RegisterEvent.MissingPhoneShownAsNotProvided | src/app/api/register-event/route.ts:62-66 | a registration without a phone shows "Phone: Not provided" to the administrator |
| RegisterEvent.FailedConfirmationStopsEverything | src/app/api/register-event/route.ts:44-83 | a failing confirmation gives 500 and the administrator is never mailed |
| Subscribe.SubscriptionMails | src/app/api/subscribe/route.ts:27-49 | the welcome mail to the subscriber goes first. "New Newsletter Subscription" to ADMIN_EMAIL follows exactly when it is set |
| Subscribe.Subscribe | src/app/api/subscribe/route.ts:4-68 | checks run in order: unreadable body 500, no email 400, bad email 400, each sending nothing. The reply is success exactly when the email is valid and no dispatch throws. A dispatch that throws gives 500 "Failed to process subscription. Please try again." after the emails attempted up to and including it |
| Subscribe.FailedAdminNoticeFailsRequest | src/app/api/subscribe/route.ts:37-67 | a failing administrator notice gives 500 although the welcome mail went out |
| Header.ActiveIndices | src/components/Header.tsx:91-96 | on any pathname at most one top-level entry is highlighted, and every active entry is listed |
| Header.IsActive | src/components/Header.tsx:91-96 | every entry is active on its own path, and only on paths at least as long as its href |
| Header.RootActiveOnlyAtRoot | src/components/Header.tsx:92-94 | "Home" is highlighted exactly on "/" |
| Header.ActiveBelowOwnPath | src/components/Header.tsx:95 | every other entry is highlighted on its own path and on every path below it |
| Header.StorefrontMarksStore | src/components/Header.tsx:91-96 | the prefix test does not stop at a segment boundary: "/storefront" highlights "Store" |
| Header.HrefsPrefixFree | src/components/Header.tsx:29-88 | no non-root menu href is a prefix of another |
| Header.AtMostOneActive | src/components/Header.tsx:29-96 | no two top-level entries are highlighted together |
| Header.DropdownEntries | src/components/Header.tsx:146 | exactly Literacy, Numeracy, Career Development and Store have a dropdown |
| Header.ShowsSubmenu | src/components/Header.tsx:146 | of the menu's entries, exactly /literacy, /numeracy, /career and /store show a dropdown |
| Header.SubItemHighlighted | src/components/Header.tsx:162 | a submenu entry is highlighted exactly where the prefix rule would mark it and the pathname is no longer than its href |
| Header.ShowsCartBadge | src/components/Header.tsx:204 | for a non-negative item count the badge shows exactly when the cart is not empty |
| Header.AtMostOneSubItemHighlighted | src/components/Header.tsx:162 | at most one submenu entry of the whole menu is highlighted on any pathname |
| Header.MobileMenu.constructor | src/components/Header.tsx:24 | the mobile menu starts closed |
| Header.MobileMenu.Toggle | src/components/Header.tsx:219 | the menu button flips the menu |
| Header.MobileMenu.LinkClicked | src/components/Header.tsx:246 | any mobile link closes the menu |
| Header.OpenThenNavigate | src/components/Header.tsx:219-265 | opening the menu and following a link leaves it closed |
| Catalogue.Filter | src/app/store/page.tsx:121-126 | `Array.prototype.filter`: the result holds exactly the elements that pass, each with its count, and is no longer than the input |
| Catalogue.FilterIsSubsequence | src/app/store/page.tsx:121-126 | the filtered list keeps the input's order |
| Catalogue.PrefixIsSubsequence | src/app/store/page.tsx:128 | a prefix of a subsequence is a subsequence (`slice(0, n)`) |
| Catalogue.FilterEmptyIff | src/app/numeracy/articles/page.tsx:297 | the filtered list is empty exactly when no element passes |
| Catalogue.AnyFieldMatchesIff | src/app/store/page.tsx:123-124 | a search over several fields matches exactly when one field contains the lower-cased query |
| Catalogue.EmptyQueryMatches | src/app/store/page.tsx:123-124 | the empty query matches every item |
| Catalogue.FieldMatchesItself | src/app/store/page.tsx:123-124 | a field's own text finds it |
| Catalogue.SearchIgnoresQueryCase | src/app/store/page.tsx:123-124 | the search gives the same answer for a query and its lower-case form |
| StorePage.FilteredProducts | src/app/store/page.tsx:121-126 | exactly the products in the selected category (or "all") whose title or description contains the query, each kept as often as it occurs, in catalogue order |
| StorePage.DefaultListsEverything | src/app/store/page.tsx:18-19 | the initial "all" and empty search list the whole catalogue in order |
| StorePage.TitleSearchFindsProduct | src/app/store/page.tsx:121-126 | a product's exact title finds it under any selection that admits it |
| StorePage.FeaturedProducts | src/app/store/page.tsx:128 | the featured strip holds the first min(3, n) products rated at least 4.8, in catalogue order |
| StorePage.Store.constructor | src/app/store/page.tsx:20-22 | no highlighted card, no toast, nothing added |
| StorePage.Store.HandleAddToCart | src/app/store/page.tsx:137-165 | a free product shows "Free download started!" and reaches no cart. Any other is handed to the cart, highlighted and announced as "<title> added to cart!". Nothing free is ever in the cart |
| StorePage.FreeThenPaid | src/app/store/page.tsx:137-165 | clicking a free product then a paid one adds only the paid one |
| StoreFreePage.FilteredResources | src/app/store/free/page.tsx:131-135 | exactly the resources whose title or description contains the query, each kept as often as it occurs in the list, in order |
| StoreFreePage.TotalDownloadsAppend | src/app/store/free/page.tsx:186 | the download total of two lists is the sum of their totals |
| StoreFreePage.TotalCoversEach | src/app/store/free/page.tsx:186 | each resource's downloads are within the total |
| StoreFreePage.TotalDownloads | src/app/store/free/page.tsx:186 | the empty list totals 0, a single resource totals its own downloads, and each resource's downloads are within the total; with `TotalDownloadsAppend` this fixes the `reduce` sum |
| StoreFreePage.FilteredDownloadsWithinTotal | src/app/store/free/page.tsx:186 | the search results' downloads are within the total |
| StoreFreePage.EmptySearchListsEverything | src/app/store/free/page.tsx:131-135 | the empty search lists every resource |
| StoreFreePage.PageView | src/app/store/free/page.tsx:174-241 | the "<n>+ Free Resources" count and the download total are taken over the whole list whatever the search; the results and their downloads stay within them |
| EventsPage.FilteredEvents | src/app/events/page.tsx:149-154 | exactly the events of the selected category (or "all") whose title or description contains the query, each kept as often as it occurs in the list, in order |
| EventsPage.FeaturedEvents | src/app/events/page.tsx:156 | exactly the featured events, each kept as often as it occurs in the list, in order, whatever the search |
| EventsPage.FeaturedSection | src/app/events/page.tsx:280-281 | the featured section shows only under "all" |
| EventsPage.DefaultListsEverything | src/app/events/page.tsx:149-156 | "all" and the empty search list every event, featured ones included |
| CareerPage.FilteredCareerPaths | src/app/career/page.tsx:120-124 | exactly the paths whose title or description contains the query, each kept as often as it occurs in the list, in order |
| CareerPage.FilteredSuccessStories | src/app/career/page.tsx:126-131 | exactly the stories whose name, role or story contains the query, each kept as often as it occurs in the list, in order |
| CareerPage.CountsWithinLists | src/app/career/page.tsx:238 | the "paths found" and "stories found" counts never exceed the lists |
| CareerPage.RoleSearchFindsStory | src/app/career/page.tsx:126-131 | a story is found by its role alone |
| CareerPage.EmptySearchListsEverything | src/app/career/page.tsx:120-131 | the empty search lists every path and every story |
| CareerPathsPage.FilteredPaths | src/app/career/paths/page.tsx:168-173 | exactly the paths of the selected sector (or "All") whose title or description contains the query, each kept as often as it occurs in the list, in order |
| CareerPathsPage.SectorSelection | src/app/career/paths/page.tsx:168-173 | a specific sector shows only its own paths, and every one of them the search finds |
| CareerPathsPage.DefaultListsEverything | src/app/career/paths/page.tsx:168-173 | "All" and the empty search list every path |
| CareerSkillsPage.FilteredCourses | src/app/career/skills/page.tsx:193-199 | exactly the courses of the selected category (or "All") whose title, description or one of whose skills contains the query, each kept as often as it occurs in the list, in order |
| CareerSkillsPage.SkillFindsCourse | src/app/career/skills/page.tsx:193-199 | a course is found by any one of its skills |
| CareerSkillsPage.NoResultsIff | src/app/career/skills/page.tsx:373 | the "no courses" panel shows exactly when no course passes both tests |
| CareerStoriesPage.FilteredStories | src/app/career/stories/page.tsx:150-156 | exactly the stories of the selected value (or "All") whose name, role or story contains the query, each kept as often as it occurs in the list, in order |
| CareerStoriesPage.SelectionComparesCategory | src/app/career/stories/page.tsx:154 | the selector labelled "role" compares the category: a story whose role equals the selection but whose category differs is hidden |
| CareerStoriesPage.DefaultListsEverything | src/app/career/stories/page.tsx:150-156 | "All" and the empty search list every story |
| CareerStoriesPage.CompanyAndAchievementNotSearched | src/app/career/stories/page.tsx:151-153 | company and achievement play no part in the match |
| LiteracyBlogPage.FilteredPosts | src/app/literacy/blog/page.tsx:131-136 | exactly the posts of the selected category (or "All") whose title or excerpt contains the query, each kept as often as it occurs in the list, in order |
| LiteracyBlogPage.NoResultsIff | src/app/literacy/blog/page.tsx:261 | the "no posts" panel shows exactly when no post passes both tests |
| LiteracyBlogPage.DefaultListsEverything | src/app/literacy/blog/page.tsx:131-136 | "All" and the empty search list every post |
| LiteracyReadingPage.FilteredResources | src/app/literacy/reading/page.tsx:146-148 | "All" lists everything; any other level lists exactly the resources of that level or of level "All", each kept as often as it occurs in the list, in order |
| LiteracyReadingPage.AllLevelResourceAlwaysShown | src/app/literacy/reading/page.tsx:148 | a resource for all levels shows under every selection |
| LiteracyReadingPage.NoResultsIff | src/app/literacy/reading/page.tsx:309 | the "no resources" panel shows exactly when the list is empty, or a level other than "All" is selected and no resource has it or "All" |
| LiteracyWritingPage.FilteredTools | src/app/literacy/writing/page.tsx:170-172 | "All" lists everything; any other category lists exactly its own tools, each kept as often as it occurs in the list, in order |
| LiteracyWritingPage.ItemsLabel | src/app/literacy/writing/page.tsx:291 | the label is "<n> item" or "<n> items", with the plural exactly when n is not 1 |
| LiteracyWritingPage.NoResultsIff | src/app/literacy/writing/page.tsx:332 | the "no tools" panel shows exactly when the list is empty or the category selects no tool |
| NumeracyPage.FilteredGalleryItems | src/app/numeracy/page.tsx:107-111 | exactly the items whose title or description contains the query, each kept as often as it occurs in the list, in order; the count at line 218 never exceeds the gallery |
| NumeracyPage.SearchIgnoresCase | src/app/numeracy/page.tsx:107-111 | a query and its lower-case form give the same list |
| NumeracyPage.CategoryAndDifficultyNotSearched | src/app/numeracy/page.tsx:107-111 | category and difficulty play no part in the match |
| NumeracyPage.EmptySearchListsEverything | src/app/numeracy/page.tsx:107-111 | the empty search lists every item |
| NumeracyArticlesPage.FilteredArticles | src/app/numeracy/articles/page.tsx:167-172 | exactly the articles of the selected category (or "All") whose title or excerpt contains the query, each kept as often as it occurs in the list, in order |
| NumeracyArticlesPage.NoResultsIff | src/app/numeracy/articles/page.tsx:297 | the "no articles" panel shows exactly when no article passes both tests |
| NumeracyArticlesPage.TitleSearchFindsArticle | src/app/numeracy/articles/page.tsx:167-172 | an article's title, under its own category, finds it |
| NumeracyArticlesPage.AuthorNotSearched | src/app/numeracy/articles/page.tsx:168-169 | the author plays no part in the match |
| NumeracyArticlesPage.DefaultListsEverything | src/app/numeracy/articles/page.tsx:167-172 | "All" and the empty search list every article |
| NumeracyBooksPage.FilteredBooks | src/app/numeracy/books/page.tsx:180-186 | exactly the books of the selected level (or "All") whose title, description or one of whose topics contains the query, each kept as often as it occurs in the list, in order |
| NumeracyBooksPage.TopicFindsBook | src/app/numeracy/books/page.tsx:180-186 | a book is found by any one of its topics, at its own level and under "All" |
| NumeracyBooksPage.NoResultsIff | src/app/numeracy/books/page.tsx:360 | the "no books" panel shows exactly when no book passes both tests |
| NumeracyGalleryPage.FilteredItems | src/app/numeracy/gallery/page.tsx:157-163 | exactly the items of the selected category and difficulty (each or "All") whose title or description contains the query, each kept as often as it occurs in the list, in order |
| NumeracyGalleryPage.ShowingLine | src/app/numeracy/gallery/page.tsx:255 | "Showing n of m": n is the length of the filtered list, m the gallery size, n never exceeds m, and n is 0 exactly when no item passes |
| NumeracyGalleryPage.NarrowingNeverAdds | src/app/numeracy/gallery/page.tsx:157-163 | choosing a category instead of "All" never shows an item that "All" hides |
| NumeracyGalleryPage.DefaultListsEverything | src/app/numeracy/gallery/page.tsx:157-163 | "All", "All" and the empty search list every item |

## Left out

- Sending email: the console, Resend and Nodemailer back ends that `EMAIL_SERVICE` selects inside `sendEmail` (the SendGrid branch is commented out), the HTML and text templates (order tables, totals formatted to two decimals, `toLocaleDateString`), and the admin notices' timestamps. Only the recipients, the subjects and the registration notice's text body are modelled. Whether a dispatch throws is an input.
- Network and clock: the provider endpoints and `fetch` are replaced by their possible replies, and `Date.now()`, `Math.random()` and `new Date().toISOString()` are parameters.
- Paystack.ConvertToKobo: amounts are exact reals, so the floating-point error of `amount * 100` in JavaScript is not modelled.
- Paystack.FormatCurrency: the grouping and two-decimal rendering done by `toFixed` and `toLocaleString` are inputs. The model fixes only which rendering is used and what prefix it gets.
- Text.Lower: folds ASCII letters only. `toLowerCase` also folds non-ASCII letters, which the model does not.
- PaymentInitialize.Initialize: request fields are either a string or absent. A non-string `email`, a string `amount` and a `cartItems` that is not an array are not modelled.
- PaymentVerify.Verify: a throwing admin notice has the same effect as a throwing customer confirmation, since both are swallowed. So only "the customer's send throws" is an input, and the admin notice is then never attempted.
- The reference is put in the verify URL unencoded. The model hands the verify endpoint the same reference the page read.
- PaymentCallback.CallbackPage: the effect re-runs when `searchParams` change, and overlapping runs are not modelled. Each page instance verifies once. A browser refresh is a new instance, which verifies again. The "Try Again" and home navigation buttons are not modelled.
- PaymentModal.Modal.VerifyPayment: the three-second timer that hides the success view and closes the modal is not modelled.
- The popup script: when it is missing, `initializePaystack` only alerts. The model records that no popup opened, and the modal then stays in processing, as in the code.
- The cart context (`useCart`): its code is not part of this model. The modal's cart is a field that a successful verification clears. The store's `addToCart` is a log of the products handed to it, and `getTotalItems` is an input of `Header.ShowsCartBadge`.
- StorePage.Store.HandleAddToCart: the timers that clear the highlight after two seconds and hide the toast after three are not modelled.
- The static catalogue arrays of every page are parameters, and each item carries only the fields the filters and the rules read.
- Rendering, animation, icons, theming, the product details modal and the blog's article pages are not modelled.

## Findings

| source | as written | input that shows it | evidently intended | confidence | as-written member | corrected member |
|---|---|---|---|---|---|---|
| src/lib/paystack.ts:127-135 | `formatCurrency` looks the code up on a plain object literal, so keys inherited from `Object.prototype` pass the `!currencyInfo` test, and their missing `symbol` is printed as "undefined" | `formatCurrency(10, "toString")` gives "undefined10.00" | an unsupported code gives the bare amount "10.00" | not executed | Paystack.FormatCurrencyAsWritten, Paystack.InheritedKeyGetsUndefinedSymbol | Paystack.FormatCurrency |
