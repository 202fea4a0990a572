# Marketplace pages — a verified model

This project models the page logic of a classified-ads marketplace front end. The pages talk
to a hosted database through table queries. Six pages are modelled:

- **Category page**: fetches the approved listings of one category, then filters them by a
  case-insensitive search over title and description and sorts them in place by price,
  popularity or age.
- **Admin console**: a role gate, four counters over the fetched tables, and the approve,
  reject and resolve actions.
- **Sell form**: fixed category and condition lists, and a submit that inserts one pending
  listing.
- **Listing page**: the view counter, the "contact seller" find-or-create of a conversation,
  and the choice of main image and thumbnails.
- **Chat page**: the guarded, trimmed send, the append-only message list fed by the realtime
  feed, and the "other participant" and "own message" rules.
- **AI business assistant**: a small state machine over the history, the input box and the
  in-flight flag.

The modules:

- `Text` (`text.dfy`): `toLowerCase`, `includes` and `trim` with their JavaScript meaning.
- `Market` (`market.dfy`): the shared rows, the routes and toast kinds, and `Backend`, whose
  fields are the database tables as sequences.
- One module per page:
  - `Catalog` (`catalog.dfy`)
  - `Admin` (`admin.dfy`)
  - `AddListing` (`add_listing.dfy`)
  - `Details` (`details.dfy`)
  - `Chat` (`chat.dfy`)
  - `BusinessAssistant` (`assistant.dfy`)

Each page is a class. Its fields are the page's state variables and its methods are the
handlers. The things the model takes as parameters are:

- the session;
- whether each remote call failed, every call having its own flag: the fetches, the
  lookups, the re-reads, the inserts and updates, and the view-count write;
- a reply's data;
- ids the database assigns;
- the current time.

Calls are taken to run one after another.

Notes on how JavaScript behaviour is modelled:

- `x || 0` and `x || []` become `Option` with a default.
- `.single()` yields a row only when exactly one row has the id.
- `.maybeSingle()` treats several matches as an error, which the page reads as "no
  conversation", so it inserts another one.
- `Array.prototype.sort` is an insertion sort on an array, driven by the page's comparator.
  With an empty search the `filteredProducts` array is the fetched array itself.

## Model

| member | source | states |
|---|---|---|
| Text.ToLower | src/pages/CategoryPage.tsx:41-42 | lower-casing keeps the length and maps each character to its lower-case form |
| Text.ToLowerIdempotent | src/pages/CategoryPage.tsx:41-42 | lower-casing an already lower-cased string changes nothing |
| Text.Includes | src/pages/CategoryPage.tsx:41-42 | `includes` holds whenever the pattern starts the text, and never when the pattern is longer than the text (its full meaning is `Text.IncludesIffOccurs`) |
| Text.IncludesIffOccurs | src/pages/CategoryPage.tsx:41-42 | `includes` holds exactly when the pattern occurs in the text at some index |
| Text.IncludesEmpty | src/pages/CategoryPage.tsx:39-42 | every text includes the empty pattern |
| Text.LeadingSpaces | src/pages/Chat.tsx:110 | the counted prefix is all white space and the next character is not |
| Text.TrailingSpaces | src/pages/Chat.tsx:110 | the counted suffix is all white space and the character before it is not |
| Text.Trim | src/pages/Chat.tsx:110 | the result is the input with only white space removed at both ends; it neither starts nor ends with white space; it is empty iff the input is all white space |
| Text.TrimIdempotent | src/pages/Chat.tsx:110-115 | trimming the trimmed text changes nothing |
| Catalog.CategoryQuery | src/pages/CategoryPage.tsx:26-33 | a listing is fetched iff it is in the table, has the route's category and is approved |
| Catalog.Matches | src/pages/CategoryPage.tsx:40-43 | a listing matches iff the lower-cased query occurs at some index of its lower-cased title, or of its lower-cased description when it has one |
| Catalog.HitIffOccurs | src/pages/CategoryPage.tsx:40-43 | either `includes` scan succeeds iff the query occurs in the title or in the present description |
| Catalog.MatchesIgnoresQueryCase | src/pages/CategoryPage.tsx:39-43 | the search gives the same answer for a query and its lower-cased form |
| Catalog.MatchesEmptyQuery | src/pages/CategoryPage.tsx:39-43 | every listing matches the empty query |
| Catalog.SearchFilter | src/pages/CategoryPage.tsx:39-44 | each listing is kept as often as in the input if its title or description contains the query (ignoring case), and dropped otherwise |
| Catalog.SearchFilterEmptyQuery | src/pages/CategoryPage.tsx:37-44 | filtering with the empty query returns the list unchanged, so skipping the filter is harmless |
| Catalog.Selected | src/pages/CategoryPage.tsx:37-44 | the list that gets sorted holds exactly the matching fetched listings, each as often as it was fetched, whether or not the filter runs |
| Catalog.EmptyStateIffNoMatch | src/pages/CategoryPage.tsx:102-106 | the "no products" message shows iff no fetched listing matches the query |
| Catalog.SortKeyOf | src/pages/CategoryPage.tsx:46-58 | "price-low", "price-high" and "popular" select their own order; every other value sorts newest first |
| Market.Views | src/pages/CategoryPage.tsx:54 | a missing view counter reads as 0 and a present one as its value |
| Catalog.Compare | src/pages/CategoryPage.tsx:47-57 | each comparator is the difference of one integer rank per listing, so all four modes are consistent orders |
| Catalog.SortedMeaning | src/pages/CategoryPage.tsx:46-58 | a sorted result has non-decreasing price, non-increasing price, non-increasing views (missing = 0) or non-increasing creation time, by mode |
| Catalog.SortInPlace | src/pages/CategoryPage.tsx:46-58 | the array ends sorted by the comparator's rank and is a permutation of its old contents |
| Catalog.InsertLast | src/pages/CategoryPage.tsx:46-58 | one insertion step extends the sorted prefix by one element and keeps the multiset |
| Catalog.SwapStep | src/pages/CategoryPage.tsx:46-58 | swapping an element with a left neighbour the comparator puts after it moves the insertion pass one step left |
| Catalog.SwapKeepsElements | src/pages/CategoryPage.tsx:46-58 | a swap of neighbours keeps the same elements |
| Catalog.FinishInsertion | src/pages/CategoryPage.tsx:46-58 | a pass that stops at the front, or next to an element the comparator does not put after it, leaves the prefix in order |
| Catalog.CategoryPage.constructor | src/pages/CategoryPage.tsx:12-16 | empty lists, empty query, sort mode "newest" |
| Catalog.CategoryPage.FetchProducts | src/pages/CategoryPage.tsx:22-34 | the fetched array holds the category query (empty when the query returns no data), and storing it re-runs the effect: the `filteredProducts` array is a sorted permutation of the fetched rows that match the current query, and is the fetched array itself when the query is empty |
| Catalog.CategoryPage.FilterAndSortProducts | src/pages/CategoryPage.tsx:36-61 | the `filteredProducts` array is a sorted permutation of the matching fetched listings; with an empty query it is the fetched array itself, reordered, otherwise a fresh array and the fetched one is untouched |
| Catalog.CategoryPage.SetSearchQuery | src/pages/CategoryPage.tsx:79 | a new query is stored and the `filteredProducts` array recomputed as a sorted permutation of the matches: the fetched array itself, reordered, for an empty query, otherwise a fresh array with the fetched one untouched |
| Catalog.CategoryPage.SetSortBy | src/pages/CategoryPage.tsx:83 | a new mode is stored and the `filteredProducts` array re-sorted in that mode: the fetched array itself, reordered, for an empty query, otherwise a fresh array with the fetched one untouched |
| Admin.HasAdminRole | src/pages/AdminDashboard.tsx:35-36 | the gate opens iff the roles reply exists and some role is "admin" |
| Admin.AnyAdmin | src/pages/AdminDashboard.tsx:36 | the scan finds "admin" iff it is at some index |
| Admin.CountPending | src/pages/AdminDashboard.tsx:72 | the count is how many times "pending" occurs in the approval column, so at most the number of listings |
| Admin.CountOpenReports | src/pages/AdminDashboard.tsx:73 | the count is how many times "pending" occurs in the report status column, so at most the number of reports |
| Admin.CountPendingAppend | src/pages/AdminDashboard.tsx:72 | the pending count of a concatenation is the sum of the counts |
| Admin.CountOpenReportsAppend | src/pages/AdminDashboard.tsx:73 | the open-report count of a concatenation is the sum of the counts |
| Admin.ComputeStats | src/pages/AdminDashboard.tsx:61-74 | users and listings are the reply lengths and pending and open reports are the numbers of "pending" in the two status columns, a missing reply counting as an empty table |
| Admin.SetApproval | src/pages/AdminDashboard.tsx:78 | rows with the id get the new status; every other row is unchanged |
| Admin.ResolveRows | src/pages/AdminDashboard.tsx:99-103 | rows with the id become resolved, stamped with the time and the resolver; every other row is unchanged |
| Admin.OffersModeration | src/pages/AdminDashboard.tsx:204 | Approve and Reject are offered exactly on pending listings |
| Admin.OffersResolve | src/pages/AdminDashboard.tsx:279 | Resolve is offered exactly on pending reports |
| Admin.ModerationLowersPending | src/pages/AdminDashboard.tsx:77-95 | approving or rejecting a shown (pending, uniquely keyed) listing lowers the pending count by exactly one |
| Admin.ResolveLowersOpenReports | src/pages/AdminDashboard.tsx:97-111 | resolving a shown (pending, uniquely keyed) report lowers the open-report count by exactly one |
| Admin.ResolveNeverRaisesOpenReports | src/pages/AdminDashboard.tsx:97-103 | resolving never raises the open-report count |
| Admin.Read | src/pages/AdminDashboard.tsx:61-63 | a re-fetch reply reads as the current table when it carries data and as an empty table otherwise |
| Admin.AdminConsole.constructor | src/pages/AdminDashboard.tsx:16-21 | not admin, loading, zero stats, empty tables |
| Admin.AdminConsole.FetchDashboardData | src/pages/AdminDashboard.tsx:54-75 | stores the three replies (missing = empty) and their stats |
| Admin.AdminConsole.CheckAdminAccess | src/pages/AdminDashboard.tsx:27-52 | no session goes to /auth; no admin role goes home with an error and loads nothing; an admin gets the data; loading ends on every path |
| Admin.AdminConsole.Refetch | src/pages/AdminDashboard.tsx:54-75 | the console shows what each of the three queries returned, an empty table for a reply without data, and the stats of those replies; the gate and loading flags stay |
| Admin.AdminConsole.Moderate | src/pages/AdminDashboard.tsx:77-95 | a failed update shows an error and leaves the table and every shown table and counter as they were; a successful one writes the status, toasts success and shows the re-fetched users, listings, reports and their stats |
| Admin.AdminConsole.ApproveProduct | src/pages/AdminDashboard.tsx:77-85 | failure: error toast, table and console unchanged; success: the listing is approved, a success toast, and users, listings, reports and stats are re-fetched |
| Admin.AdminConsole.RejectProduct | src/pages/AdminDashboard.tsx:87-95 | failure: error toast, table and console unchanged; success: the listing is rejected, a success toast, and users, listings, reports and stats are re-fetched |
| Admin.AdminConsole.ResolveReport | src/pages/AdminDashboard.tsx:97-111 | failure: error toast, table and console unchanged; success: the report is resolved with the time and the signed-in user, a success toast, and users, listings, reports and stats are re-fetched |
| Admin.ApproveShownListing | src/pages/AdminDashboard.tsx:204-207 | approving a listing whose button is shown, when the listings re-fetch returns data, leaves the pending counter one lower than the old table's count |
| Admin.ResolveShownReport | src/pages/AdminDashboard.tsx:279-280 | resolving a report whose button is shown, when the reports re-fetch returns data, leaves the open-report counter one lower than the old table's count |
| AddListing.OptionListsAreDistinct | src/pages/AddProduct.tsx:29-35 | 14 distinct category slugs and 3 distinct condition labels |
| AddListing.RequiredFilled | src/pages/AddProduct.tsx:93-153 | the browser lets the form submit only when title, price, location, category and condition are all filled in; the description is optional |
| AddListing.DropBlankImages | src/pages/AddProduct.tsx:57 | a URL is kept iff it is in the form and not blank after trimming |
| AddListing.DropBlankImagesAppend | src/pages/AddProduct.tsx:57 | the filter works piece by piece, keeping the order |
| AddListing.NewListing | src/pages/AddProduct.tsx:49-59 | the inserted row is pending, owned by the user, carries the form fields and only the non-blank image URLs |
| AddListing.SubmissionRaisesPending | src/pages/AddProduct.tsx:49-59 | each submission adds exactly one to the pending count the admin console shows |
| AddListing.AddProductPage.constructor | src/pages/AddProduct.tsx:18-27 | every field blank, one empty image slot, not loading |
| AddListing.AddProductPage.EditText | src/pages/AddProduct.tsx:95-130 | typing changes only the typed fields |
| AddListing.AddProductPage.SelectCategory | src/pages/AddProduct.tsx:139 | the category select only ever holds an offered slug |
| AddListing.AddProductPage.SelectCondition | src/pages/AddProduct.tsx:153 | the condition select only ever holds an offered label |
| AddListing.AddProductPage.SetImageUrl | src/pages/AddProduct.tsx:171-172 | the single image slot is replaced |
| AddListing.AddProductPage.HandleSubmit | src/pages/AddProduct.tsx:37-71 | no session: /auth and no insert; a failed insert: error and stay; success: exactly one pending row appended and go to /dashboard; loading off on every path |
| AddListing.AddProductPage.Submittable | src/pages/AddProduct.tsx:88-172 | the browser submits when the required fields are filled and the image field is empty or holds a text it accepts as a URL |
| AddListing.AddProductPage.Submit | src/pages/AddProduct.tsx:88-172 | a blank required field or a rejected image URL blocks the submit with no insert, no toast and no navigation; otherwise the handler runs: /auth without a session, an error toast on a failed insert, one pending row and /dashboard on success, loading off |
| Details.MainImage | src/pages/ProductDetails.tsx:138 | the first image unless it is missing or empty, else the fixed fallback; never empty |
| Details.Thumbnails | src/pages/ProductDetails.tsx:143-145 | none unless there are two or more images; otherwise images 1 to 4, in order, at most four |
| Details.RowsWithId | src/pages/ProductDetails.tsx:33 | exactly the rows with the id |
| Details.SingleById | src/pages/ProductDetails.tsx:27-34 | a listing is fetched iff exactly one table row has the id, and it is that row |
| Details.SetViews | src/pages/ProductDetails.tsx:51-54 | rows with the id get the new count; every other row is unchanged |
| Details.Visit | src/pages/ProductDetails.tsx:36-54 | a fetch that errs, a fetch that does not find exactly one row and a failed counter write all leave the table as it is; the table keeps its length |
| Details.RowsWithIdAfterSetViews | src/pages/ProductDetails.tsx:51-54 | the update keeps the rows with the id, in order, each with the new count |
| Details.VisitAddsOne | src/pages/ProductDetails.tsx:46-54 | after a visit whose fetch and write succeed, the listing's counter is its old value (missing = 0) plus one |
| Details.VisitKeepsOtherRows | src/pages/ProductDetails.tsx:51-54 | a visit, failed or not, changes no row with another id |
| Details.TwoVisitsAddTwo | src/pages/ProductDetails.tsx:46-54 | two visits in a row, neither failing, add exactly two |
| Details.Matching | src/pages/ProductDetails.tsx:74-80 | exactly the conversations with this listing, buyer and seller |
| Details.MatchingAppend | src/pages/ProductDetails.tsx:85-93 | inserting a conversation adds it to the matches iff it has the triple |
| Details.ExistingConversation | src/pages/ProductDetails.tsx:74-82 | a conversation is found iff the lookup succeeds and exactly one row has the triple, and its id is returned |
| Details.FindOrCreate | src/pages/ProductDetails.tsx:73-107 | a found conversation or a failed insert leaves the table unchanged; otherwise (no match, several matches or a failed lookup) exactly the new conversation is appended, becomes the target and adds one to the matches; the target has the triple; there is no target only when the insert failed |
| Details.ContactTwiceSameConversation | src/pages/ProductDetails.tsx:73-107 | contacting twice with no failing call creates at most one conversation and lands in the same one both times |
| Details.FailedLookupDuplicates | src/pages/ProductDetails.tsx:74-93 | a lookup that fails while the conversation exists reads as "none", so the insert creates a second conversation with the same triple and the user is sent to it |
| Details.DetailsPage.constructor | src/pages/ProductDetails.tsx:14-17 | no listing yet, loading |
| Details.DetailsPage.FetchProduct | src/pages/ProductDetails.tsx:26-58 | a fetch error (or not exactly one row) goes home with an error, writes nothing and leaves loading on; otherwise the row is shown and loading ends, and the counter is written as its old value plus one unless that write fails, which the page ignores |
| Details.DetailsPage.ContactSeller | src/pages/ProductDetails.tsx:63-108 | no user: a hint, /auth, no lookup; otherwise find-or-create (a failed lookup reading as "none") and go to its chat, or an error toast when the insert failed |
| Chat.ConversationsWithId | src/pages/Chat.tsx:38 | exactly the conversations with the id |
| Chat.ConversationById | src/pages/Chat.tsx:30-39 | a conversation is found iff exactly one row has the id, and it is that row |
| Chat.MessagesWithId | src/pages/Chat.tsx:86 | exactly the messages with the id |
| Chat.MessageById | src/pages/Chat.tsx:83-87 | a message is found iff exactly one row has the id, and it is that row |
| Chat.MessageByIdOfAppended | src/pages/Chat.tsx:83-90 | a newly inserted message under a fresh id is the one the re-read returns |
| Chat.NoRowsWithId | src/pages/Chat.tsx:86 | no row carries an unused id |
| Chat.MessagesWithIdAppend | src/pages/Chat.tsx:86 | appending a row adds it to the rows with its id only |
| Chat.MessagesOf | src/pages/Chat.tsx:54-62 | exactly the messages of this conversation |
| Chat.SendDraft | src/pages/Chat.tsx:110-116 | nothing is sent iff the input is blank or nobody is signed in; the row is in this conversation, from the user, non-empty and not padded with white space |
| Chat.SentContentIsTypedText | src/pages/Chat.tsx:110-116 | the sent text is what was typed with white space removed at the ends only, and is already trimmed |
| Chat.OtherParticipant | src/pages/Chat.tsx:130-132 | the seller when the user is the buyer, else the buyer; nothing before the conversation loads |
| Chat.OtherParticipantIsTheOtherOne | src/pages/Chat.tsx:130-132 | for a participant of a two-person conversation the other participant is the other person, and vice versa |
| Chat.IsOwn | src/pages/Chat.tsx:173 | a message is drawn as own exactly when the signed-in user sent it |
| Chat.OwnOnExactlyOneSide | src/pages/Chat.tsx:173 | a participant's message is shown as own to exactly one of the two, and to no one when signed out |
| Chat.ChatPage.constructor | src/pages/Chat.tsx:16-19 | no conversation, no messages, empty input, no user |
| Chat.ChatPage.LoadSession | src/pages/Chat.tsx:22-26 | stores the session user |
| Chat.ChatPage.FetchConversation | src/pages/Chat.tsx:29-52 | a fetch error or a missing conversation gives an error and a redirect to /dashboard and leaves the conversation unset; otherwise it is stored |
| Chat.ChatPage.FetchMessages | src/pages/Chat.tsx:54-66 | the list becomes this conversation's messages, or empty when there is no data |
| Chat.ChatPage.OnIncoming | src/pages/Chat.tsx:82-93 | the re-read row is appended at the end and earlier messages stay; nothing changes when the re-read fails or finds no single row |
| Chat.ChatPage.SetNewMessage | src/pages/Chat.tsx:202 | stores the typed text |
| Chat.ChatPage.HandleSendMessage | src/pages/Chat.tsx:108-128 | the guard blocks blank input and no user; the trimmed text is inserted; the input clears only on success; the local list never changes |
| Chat.SendThenReceive | src/pages/Chat.tsx:82-128 | a successful send followed by its realtime notice, whose re-read succeeds, appends exactly that message, trimmed and own, and clears the input |
| BusinessAssistant.WithUserTurn | src/pages/AIAssistant.tsx:37-43 | the request history is the shown history plus one user turn holding the trimmed input |
| BusinessAssistant.WithReply | src/pages/AIAssistant.tsx:52-57 | exactly one assistant turn is added iff the reply holds a non-empty message; nothing is removed |
| BusinessAssistant.Ignored | src/pages/AIAssistant.tsx:35 | a send is ignored exactly when the trimmed input is empty or a request is in flight |
| BusinessAssistant.SendsOnKey | src/pages/AIAssistant.tsx:71 | only Enter without Shift sends |
| BusinessAssistant.SendExtendsHistory | src/pages/AIAssistant.tsx:34-68 | a send keeps earlier turns in place, adds the user turn next, then at most one assistant turn, and none on error |
| BusinessAssistant.GreetingStaysFirst | src/pages/AIAssistant.tsx:18-23 | the greeting stays the first turn after any send |
| BusinessAssistant.AssistantPage.constructor | src/pages/AIAssistant.tsx:18-25 | the history is the greeting alone, input empty, not loading |
| BusinessAssistant.AssistantPage.SetInput | src/pages/AIAssistant.tsx:152 | stores the typed text |
| BusinessAssistant.AssistantPage.BeginSend | src/pages/AIAssistant.tsx:35-48 | blank input or a request in flight changes nothing; otherwise the user turn is appended, the input cleared, loading set, and the request carries the whole new history |
| BusinessAssistant.AssistantPage.Complete | src/pages/AIAssistant.tsx:50-67 | the answer, if any, is appended; an error only shows a toast and does not restore the input; loading ends |
| BusinessAssistant.AssistantPage.HandleSend | src/pages/AIAssistant.tsx:34-68 | the whole send: ignored, or the history grows by the user turn and the reply's effect, with the input cleared and loading off |
| BusinessAssistant.AssistantPage.HandleKeyPress | src/pages/AIAssistant.tsx:70-75 | Enter without Shift runs the whole send with its toast; any other key, and Enter while the send guard blocks, changes nothing and shows nothing |

## Left out

- Rendering, styling, icons and the text of toasts. Only the kind of toast is modelled.
- The realtime subscription and its teardown (src/pages/Chat.tsx:72-99). The model has only
  the callback, as `OnIncoming`.
- Scrolling (src/pages/Chat.tsx:102-106, src/pages/AIAssistant.tsx:28-32). These are DOM
  effects.
- Concurrency: the read-modify-write race on the view counter and the check-then-insert
  race on conversations. Calls are taken as sequential, and an awaited reply is a parameter.
- Floating point, dates and locale:
  - prices are integers (`Number`, `parseFloat`);
  - creation times are integers (`new Date(...).getTime()`);
  - `toLocaleString` is not modelled.
- `toLowerCase` beyond ASCII. Non-ASCII letters are left as they are.
- The joined columns of the queries: the seller profile on the listing page, the buyer,
  seller and listing on the chat page, and the sender on messages. Only the equality filters
  are modelled.
- The message list comes back ordered by creation time (src/pages/Chat.tsx:62). The model
  takes the table's order to be creation order.
- The catch branch of the admin gate (src/pages/AdminDashboard.tsx:46-48) for thrown
  exceptions. Backend replies are modelled as data, so nothing throws.
- The browser's `type="url"` check on the image field (src/pages/AddProduct.tsx:168-172). Which
  texts it accepts as URLs is not modelled; its verdict is the `urlAccepted` parameter of
  `AddListing.AddProductPage.Submit`.
- What is on screen after choosing a sort mode with an empty search
  (src/pages/CategoryPage.tsx:37, :48-60, :83). The effect sorts the fetched array in place
  and hands `setFilteredProducts` the array the state already holds. React skips a state
  update whose value is the same object, so the grid can keep its old order until another
  state change renders it. The model states the contents of the `filteredProducts` array,
  not the rendered grid.
- `Catalog.SortInPlace`: states sortedness and permutation, not the stability of
  `Array.prototype.sort`. The order of equal-rank listings is not specified.
- `Details.DetailsPage.FetchProduct`: does not model the `seller` state (the joined profile).
- A string `message` that is not a string in the assistant's reply. The reply is modelled as
  an optional string.
- src/pages/Dashboard.tsx is not part of this model. Its other-participant rule
  (src/pages/Dashboard.tsx:142) is the one `Chat.OtherParticipant` states.
- src/pages/SellerProfile.tsx is not part of this model. Its follow toggle is local state
  that is never stored.
- The header's auth-state subscription (src/components/Header.tsx:11-21). It is a callback of the
  backend SDK that only stores the session user for display.
- The other components are not part of this model. They only render and navigate.
