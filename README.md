# Salistle story rules, modelled in Dafny

Salistle is a Next.js web application. Subscribers use it to generate illustrated children's
storybooks with AI flows, keep them in Firestore, and pay for a monthly plan through Razorpay.
This project models the decision logic under that glue and proves properties of it:

- **Subscription and quota.** The subscription record is derived from the stored user document,
  including its expiry check. The generation gate reads that record, and each attempt debits a
  counter. Payment activation runs a chain of early-return checks and then one merge-write, which
  also resets the quota. Order creation is a similar check chain that prices the order in paise.
  Both routes read a fixed table of two plans.
- **The draft-story pipeline** of the story generator dialog. Image slots are filled one index at
  a time, and only indices 0, 3, 6 and 9 are illustrated. Saving is refused until all four exist.
  A save uploads only the data-URI images, numbers the pages by their index, picks a cover (or a
  placeholder) and builds the flip-book sheets.
- **The story store.** These are the `saveStory` and `deleteStory` server actions over a store of
  story documents, each with a child collection of pages. Each action checks its errors in a
  fixed order and checks ownership. A delete succeeds when the story is already gone, and it
  removes the children before the parent.
- **Small utilities:**
  - filtering and newest-first sorting of the story list;
  - the flip-book cursor, with its page label and z-index rules;
  - data-URI parsing and per-user object paths for uploads;
  - the word/delimiter split of page text.

The model has one module per source file, plus the helper modules `Wrappers`, `Strings`, `Http`
and `UserDocs`.

State that the source changes in place is a class:
- `AuthProvider` (the auth context's `user`, `loading` and `subscription`, and the current listener);
- `UserStore` (the `users` collection);
- `StoryDb` (the `stories` collection and its page sub-collections);
- `StoriesView`, `Book` and `Generator` (component state).

What the source computes from values is written as functions. The book-sheet loop is a method
proved equal to a function, and so is the slot array.

Effects outside the program become parameters:
- the AI text and image flows (their results);
- HMAC-SHA256 (RFC 2104), as `hmacHex`;
- `verifyIdToken`, as a function from token to uid or error code;
- Razorpay order creation;
- the Storage transfer;
- the clock, as an integer in milliseconds;
- `Math.random`, as a real `pick` in [0, 1);
- zod's `.url()` and `.email()`, as predicates `isUrl` and `isEmail`.

Behaviour of the code worth noting:
- The generation gate reads the cached subscription record and does not re-check the end date
  itself. The record is recomputed, with the expiry check, only when a snapshot of the user
  document arrives.
- `pageCount` in `GenerateStoryInputSchema` has no `.int()`, so 4.5 is accepted
  (`StoryTypes.FractionalPageCountAccepted`).
- The quota check and the increment happen only in the client. The server actions and routes do
  not enforce the quota.
- The activation write stores the plan's *name* (`Creator`, `Pro`) in `planId`, not its id.

## Model

| member | source | states |
|---|---|---|
| Strings.TrimSpec | src/types/index.ts:64-65 | `trim()` removes a whitespace prefix and suffix and leaves no whitespace at either end |
| Strings.TrimIdempotent | src/types/index.ts:64-65 | trimming twice is trimming once |
| Strings.Join | src/app/actions.ts:54 | no parts join to the empty string and one part to itself |
| Strings.JoinSnoc | src/app/actions.ts:54 | the parts appear left to right, the separator between each two neighbours |
| Strings.JoinLength | src/app/actions.ts:54 | the joined length is the parts' total plus one separator per gap |
| Strings.Decimal | src/app/api/razorpay-order/route.ts:55 | the decimal rendering of a time is a non-empty digit string, one digit exactly below 10 |
| Strings.DecimalSpellsValue | src/app/api/razorpay-order/route.ts:55 | the digits of the rendering spell the number back, and only 0 renders with a leading zero |
| StoryTypes.ParseGenerateStoryInput | src/types/index.ts:38-44 | accepted iff the prompt has at least 10 characters and pageCount (default 12) is in 4..12; the output has the default filled in and is otherwise the input; a rejection carries at least one message |
| StoryTypes.FractionalPageCountAccepted | src/types/index.ts:42 | pageCount 4.5 passes, because the schema has no `.int()` |
| StoryTypes.CredentialIssues | src/types/index.ts:56-59 | no issue iff the email is valid and the password has at least 6 characters |
| StoryTypes.TrimmedLengthIssues | src/types/index.ts:64-65 | no issue iff the trimmed length is within the bounds; at most one message |
| StoryTypes.PagesIssues | src/types/index.ts:67-74 | no page issue iff every page is valid |
| StoryTypes.PageIssuesSpec | src/types/index.ts:68-73 | a page has no issue iff it has an integer pageNumber, trimmed text of 1..3000, a trimmed prompt of 1..1000 and a valid URL if it has an imageUrl |
| StoryTypes.ParseNewStoryData | src/types/index.ts:63-79 | accepted iff title 1..150 and author 1..100 after trimming, a URL cover, 1..12 valid pages; the result is the trimmed record; a rejection lists the issues |
| StoryTypes.ParsedPages | src/types/index.ts:67-74 | a parsed story keeps its page count, page numbers and image URLs, and holds the trimmed, bounded text and prompt |
| StoryTypes.DuplicatePageNumbersAccepted | src/types/index.ts:69 | two pages with the same pageNumber are accepted: distinctness is not checked |
| StoryTypes.ParseNewStoryDataIdempotent | src/types/index.ts:63-79 | parsing a parsed story gives it back unchanged |
| Plans.Find | src/lib/plans.ts:3-30 | `find` by id: none iff no entry has the id; a found plan is the first entry of the table with that id |
| Plans.PlanTableShape | src/lib/plans.ts:3-30 | exactly two plans, with distinct ids and distinct names |
| Plans.CreatorTerms | src/lib/plans.ts:4-16 | plan_creator is Creator at 199 with 5 stories a month |
| Plans.ProTerms | src/lib/plans.ts:17-29 | plan_pro is Pro at 599 with 15 stories a month |
| Plans.EnumIdsAreFound | src/app/api/razorpay-verify/route.ts:12 | every id the payload enum admits is found, with a positive limit and price |
| Plans.FoundIdsAreEnum | src/app/api/razorpay-order/route.ts:10 | every id the table holds is admitted by the enum |
| UserDocs.SignUpDoc | src/context/auth-context.tsx:109-115 | the sign-up document is unsubscribed, with limit 0, count 0, the email and createdAt, and no plan, end date or payment |
| UserDocs.Incremented | src/context/auth-context.tsx:128-130 | `increment(1)` raises the count (absent reads as 0) by one and changes no other field |
| UserDocs.Merged | src/app/api/razorpay-verify/route.ts:69-81 | the merge-write sets the eight listed fields and keeps email and createdAt from the old document, if there is one |
| UserDocs.MergeIdempotent | src/app/api/razorpay-verify/route.ts:81 | merging the same write twice equals merging it once |
| UserDocs.MergeAfterIncrementsResetsCount | src/app/api/razorpay-verify/route.ts:75 | a merge after any number of increments gives the same document as the first merge |
| UserDocs.IncrementedTimesKeepsOthers | src/context/auth-context.tsx:125-132 | k increments add k to the count and change nothing else |
| UserDocs.UserStore.constructor | src/context/auth-context.tsx:109 | the stored documents are the initial map |
| UserDocs.UserStore.Set | src/context/auth-context.tsx:109-115 | `setDoc` replaces one document and no other |
| UserDocs.UserStore.Increment | src/context/auth-context.tsx:128-130 | `updateDoc` succeeds iff the document exists, incrementing only it; otherwise nothing changes |
| UserDocs.UserStore.Merge | src/app/api/razorpay-verify/route.ts:81 | `set(..., {merge: true})` stores the merged document, creating it if absent |
| AuthContext.OrNull | src/context/auth-context.tsx:72 | `planId \|\| null`: present iff present and non-empty |
| AuthContext.DeriveSubscription | src/context/auth-context.tsx:63-82 | subscribed iff the document exists, says 'subscribed' and has an end date strictly after now; then the limit and count are copied (default 0) and planId defaults to null; otherwise the canonical unsubscribed record |
| AuthContext.SignedUpIsUnsubscribed | src/context/auth-context.tsx:109-115 | a freshly signed-up user derives the canonical record |
| AuthContext.ActivationSubscribesUntilEnd | src/app/api/razorpay-verify/route.ts:69-81 | after activation the derived record is subscribed with the plan's limit and count 0 until the end date, and canonical from then on |
| AuthContext.IncrementSeenByRecord | src/context/auth-context.tsx:125-132 | an increment keeps the status, and a subscribed record sees the count one higher |
| AuthContext.AuthProvider.constructor | src/context/auth-context.tsx:32-48 | no user, no listener, the canonical record, and loading only when Firebase is configured |
| AuthContext.AuthProvider.OnAuthStateChanged | src/context/auth-context.tsx:53-94 | sets the user, listens to that user's document, and resets to the canonical record when signed out |
| AuthContext.AuthProvider.OnUserSnapshot | src/context/auth-context.tsx:63-83 | a snapshot of the watched user sets the record derived from it and ends loading; other snapshots change nothing |
| AuthContext.AuthProvider.OnUserSnapshotError | src/context/auth-context.tsx:84-88 | a listener error resets to the canonical record and ends loading |
| AuthContext.AuthProvider.IncrementStoryCount | src/context/auth-context.tsx:125-132 | skipped iff there is no user or no database; otherwise increments exactly that user's count, and fails without a change when the document is missing; the limit is never consulted |
| AuthContext.AuthProvider.SignUp | src/context/auth-context.tsx:104-118 | rejects when not configured; if account creation fails, writes nothing; if the `setDoc` after it rejects, rejects with that error and writes nothing although the account exists; otherwise writes exactly the sign-up document for the new uid |
| Storage.WordRun | src/lib/storage.ts:17 | the longest prefix of `\w` characters |
| Storage.ParseRoundTrip | src/lib/storage.ts:17-23 | `data:image/<word>;base64,<d>` parses to content type `image/<word>` and data d when d has no line terminator |
| Storage.ParseSound | src/lib/storage.ts:17-23 | whatever parses has that shape: `data:` + content type + `;base64,` + data, with a non-empty word and no line terminator |
| Storage.SvgRejected | src/lib/storage.ts:17-20 | `image/svg+xml` does not match |
| Storage.ObjectPath | src/lib/storage.ts:25 | the path lies under `stories/<userId>/` |
| Storage.ObjectPathInjective | src/lib/storage.ts:25 | for slash-free user ids, different users or object ids never share a path |
| Storage.UploadImage | src/lib/storage.ts:11-35 | uninitialised storage fails first; then a non-matching string fails with the format error; succeeds iff the transfer does, returning its URL; a failed transfer of a valid data URI always answers "Could not upload image."; every failure is one of the three messages |
| Storage.RejectedUploadTouchesNothing | src/lib/storage.ts:12-20 | when storage is missing or the string does not match, the outcome does not depend on the transfer, which is never reached |
| StoryDisplay.Split | src/components/story-display.tsx:11 | the split always has at least one segment |
| StoryDisplay.SplitConcat | src/components/story-display.tsx:11 | concatenating the segments gives the content back |
| StoryDisplay.SplitLength | src/components/story-display.tsx:11 | k delimiters give 2k+1 segments |
| StoryDisplay.SplitShape | src/components/story-display.tsx:11 | odd segments are single delimiters; even segments contain none |
| StoryDisplay.Classify | src/components/story-display.tsx:16-24 | a popover iff the trimmed segment is non-empty and has no `,."?!`, with the trimmed word, the whole content as context and the segment as shown text; otherwise the segment verbatim |
| StoryDisplay.Render | src/components/story-display.tsx:15-25 | one rendered item per segment, each the classification of its segment |
| StoryDisplay.PopoverExactlyOnWords | src/components/story-display.tsx:11-24 | item i is a popover iff i is even and its segment is non-empty |
| FlippingBook.NextIndex | src/components/flipping-book.tsx:26-30 | next advances by one below the total and is a no-op at or past it |
| FlippingBook.PrevIndex | src/components/flipping-book.tsx:32-36 | prev steps back by one above 0 and is a no-op at 0 |
| FlippingBook.DisabledIffNoOp | src/components/flipping-book.tsx:91-94 | each button is disabled exactly where its move is a no-op |
| FlippingBook.MovesStayInRange | src/components/flipping-book.tsx:26-36 | from 0..total, both moves stay in 0..total |
| FlippingBook.MovesAreInverse | src/components/flipping-book.tsx:26-36 | prev after a real next, and next after a real prev, restore the cursor |
| FlippingBook.ZIndex | src/components/flipping-book.tsx:71-72 | the z-index always lies in 1..total |
| FlippingBook.StackingOrder | src/components/flipping-book.tsx:71-72 | flipped sheets are a prefix, stacked in increasing order; unflipped sheets are stacked in decreasing order |
| FlippingBook.FirstPageNumber | src/components/flipping-book.tsx:43 | past the cover, the first page number on a spread is odd and positive |
| FlippingBook.PageLabel | src/components/flipping-book.tsx:38-56 | "Cover" iff at 0; "Back Cover" iff at the end; "Page n" on a sheet with no back or the last sheet; otherwise "Pages n-(n+1)" |
| FlippingBook.Book.constructor | src/components/flipping-book.tsx:16 | the cursor starts at 0 over the given sheets |
| FlippingBook.Book.HandleNextPage | src/components/flipping-book.tsx:26-30 | the cursor becomes the next index and stays in range |
| FlippingBook.Book.HandlePrevPage | src/components/flipping-book.tsx:32-36 | the cursor becomes the previous index and stays in range |
| StoriesView.FieldOf | src/app/stories/stories-view.tsx:96-102 | selects the story's age group, theme or reading level |
| StoriesView.Keep | src/app/stories/stories-view.tsx:96 | a filter never lengthens the list |
| StoriesView.KeepAppend | src/app/stories/stories-view.tsx:96-102 | a filter distributes over concatenation |
| StoriesView.FilterByAppend | src/app/stories/stories-view.tsx:95-103 | a guarded filter distributes over concatenation |
| StoriesView.FilterBySingle | src/app/stories/stories-view.tsx:95-103 | a one-story list is kept iff the filter admits the story |
| StoriesView.FilteredAppend | src/app/stories/stories-view.tsx:93-103 | the three filters distribute over concatenation |
| StoriesView.FilteredSingle | src/app/stories/stories-view.tsx:93-103 | a one-story list is kept iff the story matches every non-All filter |
| StoriesView.FilteredIsKeepMatching | src/app/stories/stories-view.tsx:93-103 | the three successive filters keep exactly the matching stories, in their original order |
| StoriesView.KeepMatchingMembers | src/app/stories/stories-view.tsx:95-103 | a story is in the matching sublist iff it is in the list and matches |
| StoriesView.FilteredMembers | src/app/stories/stories-view.tsx:93-103 | a story is shown iff it is in the list and matches every non-All filter |
| StoriesView.AllFiltersShowEverything | src/app/stories/stories-view.tsx:93-104 | with all three filters at All, the list is unchanged |
| StoriesView.KeepMatchingIdempotent | src/app/stories/stories-view.tsx:95-103 | keeping the matching stories twice is keeping them once |
| StoriesView.FilteredIdempotent | src/app/stories/stories-view.tsx:93-103 | refiltering with the same filters changes nothing |
| StoriesView.FilterByCommutes | src/app/stories/stories-view.tsx:95-103 | any two of the filters commute |
| StoriesView.Time | src/app/stories/stories-view.tsx:65 | `createdAt.toMillis()` when present |
| StoriesView.Compare | src/app/stories/stories-view.tsx:63-66 | 0 when either date is missing; otherwise positive iff b is newer |
| StoriesView.Insert | src/app/stories/stories-view.tsx:63-66 | inserting lengthens the list by one |
| StoriesView.SortNewestFirst | src/app/stories/stories-view.tsx:63-66 | sorting keeps the length |
| StoriesView.InsertPermutes | src/app/stories/stories-view.tsx:63-66 | an insertion adds exactly the new story |
| StoriesView.InsertMembers | src/app/stories/stories-view.tsx:63-66 | an insertion holds only the new story and the old ones |
| StoriesView.AppendOlder | src/app/stories/stories-view.tsx:63-66 | appending a story no newer than the rest keeps newest-first order |
| StoriesView.InsertKeepsNewestFirst | src/app/stories/stories-view.tsx:63-66 | inserting a dated story into a dated newest-first list keeps it dated and newest-first |
| StoriesView.SortPermutes | src/app/stories/stories-view.tsx:63-66 | the sorted list is a permutation of the input |
| StoriesView.SortOrdersDated | src/app/stories/stories-view.tsx:63-66 | when every story is dated, the sorted list is in non-increasing createdAt order |
| StoriesView.SortKeepsDated | src/app/stories/stories-view.tsx:63-66 | sorting a dated list leaves it dated |
| StoriesView.StoriesView.constructor | src/app/stories/stories-view.tsx:33-37 | both lists start empty and all three filters start at All |
| StoriesView.StoriesView.HandleFilterChange | src/app/stories/stories-view.tsx:92-109 | the filter fields become the arguments, and the shown list is the filtered list of all stories |
| StoriesView.StoriesView.OnSnapshot | src/app/stories/stories-view.tsx:56-90 | the stories are a permutation of the snapshot, newest first when all are dated, and the shown list is refiltered under the unchanged filters |
| StoriesView.Stories | src/app/stories/stories-view.tsx:57-60 | one story per snapshot document |
| StoryStore.SaveRefusal | src/app/actions.ts:19-56 | no refusal iff the database is available, the data validates and its userId is the caller; otherwise the first failing check, in that order, with the zod messages joined |
| StoryStore.DeleteRefusal | src/app/actions.ts:70-88 | proceeds iff available, both ids are given, and the stored story is the caller's; a missing story succeeds with no error; every failure carries an error; a foreign owner gets "not authorized" |
| StoryStore.DeletingMissingStorySucceeds | src/app/actions.ts:81-83 | deleting an absent story reports success |
| StoryStore.DeleteCheckOrder | src/app/actions.ts:70-76 | database first, then the empty-id check, whatever is stored |
| StoryStore.AutoId | src/app/actions.ts:32-42 | generated ids have the requested length, which keeps them fresh, and are never empty |
| StoryStore.SavedStoryIsDeletable | src/app/actions.ts:74-88 | the id a save returns passes the delete checks for its owner: it is non-empty, so it is never refused as invalid input |
| StoryStore.StoryDb.constructor | src/app/actions.ts:19 | an empty store, available or not |
| StoryStore.StoryDb.Add | src/app/actions.ts:32-35 | `add` stores the document under a fresh id and touches no pages |
| StoryStore.StoryDb.CommitSets | src/app/actions.ts:38-46 | a committed batch adds exactly its page documents to that story's pages |
| StoryStore.StoryDb.Write | src/app/actions.ts:29-49 | creates the parent from the validated fields plus createdAt; then either commits one page document per page and returns the id, or fails with the unexpected error |
| StoryStore.StoryDb.SaveStory | src/app/actions.ts:17-58 | a refusal writes nothing and returns its message; otherwise the parent and pages are written and the new id comes back with error null, or a failing write reports the unexpected error |
| StoryStore.StoryDb.DeleteStory | src/app/actions.ts:68-111 | a refused delete changes nothing, and neither does a failed read of the story or of its pages; an authorised one removes all of the story's pages and then the story, leaving every other story unchanged; a failure partway reports the unexpected error |
| StoryStore.StoryDb.DeleteChildrenThenStory | src/app/actions.ts:90-104 | a failed pages read, or a failed batch when there are pages, changes nothing; otherwise the story's pages are emptied, every other story's pages are kept, and the story document is removed unless that last delete fails |
| Wrappers.Lookup | src/app/actions.ts:78-79 | a document read by key (a story, or the caller's user document) is found iff the key is present, and is the stored value |
| StoryStore.SetBatch | src/app/actions.ts:41-44 | the batch holds one set per page |
| StoryStore.DeleteBatch | src/app/actions.ts:94-98 | the batch deletes every page in the snapshot |
| Http.Before | src/app/api/razorpay-verify/route.ts:33 | `split(sep)[k]` cuts a prefix of the string |
| Http.BeforeWithoutSeparator | src/app/api/razorpay-verify/route.ts:33 | without the separator, the whole string is returned |
| Http.BearerTokenIsRest | src/app/api/razorpay-verify/route.ts:30-33 | the token is the rest after `Bearer ` when that text does not occur again |
| Http.StringField | src/app/api/razorpay-verify/route.ts:8-13 | a field is read iff the body is an object with that field holding a string |
| RazorpayVerify.Status | src/app/api/razorpay-verify/route.ts:20-90 | every error answer has a 4xx or 5xx status |
| RazorpayVerify.ParsePayload | src/app/api/razorpay-verify/route.ts:8-42 | valid iff the three ids are strings and planId is in the enum; the payload holds exactly those fields |
| RazorpayVerify.ActivationWrite | src/app/api/razorpay-verify/route.ts:64-78 | the plan's name and limit, an end 30 days after now, a payment date of now, and the payload's ids |
| RazorpayVerify.TokenError | src/app/api/razorpay-verify/route.ts:85-90 | the two token codes give 401; any other exception gives 500 |
| RazorpayVerify.ConfigurationCheckedFirst | src/app/api/razorpay-verify/route.ts:16-26 | a missing secret or admin service answers 500 for any request |
| RazorpayVerify.MissingBearerIsUnauthorized | src/app/api/razorpay-verify/route.ts:29-32 | without a `Bearer ` header the answer is 401, before the token is checked |
| RazorpayVerify.RefusalAtEachCheck | src/app/api/razorpay-verify/route.ts:29-53 | once the earlier checks pass, a rejected token answers 401 (or 500 for an unknown error code), a missing body 500, a malformed payload 400 and a wrong signature 400 |
| RazorpayVerify.ActivationIff | src/app/api/razorpay-verify/route.ts:16-83 | activates iff configured, the token verifies, the payload parses and the signature is hmacHex(secret, orderId + "\|" + paymentId); the user is the token's |
| RazorpayVerify.PlanNotFoundUnreachable | src/app/api/razorpay-verify/route.ts:56-60 | the 404 answer is never given with this plan table |
| RazorpayVerify.ActivationRecord | src/app/api/razorpay-verify/route.ts:62-81 | the stored record is subscribed, with the plan's name, its limit, count 0, end now + 30 days, the payload's ids, and the old email and createdAt |
| RazorpayVerify.ReplayResetsCount | src/app/api/razorpay-verify/route.ts:44-81 | replaying a verified request after k stories restores count 0 |
| RazorpayVerify.Post | src/app/api/razorpay-verify/route.ts:15-92 | a refusal answers its error and writes nothing; a failing write answers 500; otherwise exactly the caller's document becomes the merge |
| RazorpayOrder.MissingBearerIsUnauthorized | src/app/api/razorpay-order/route.ts:24-27 | with the keys set, a request without a bearer token answers 401 Unauthorized |
| RazorpayOrder.RefusalAtEachCheck | src/app/api/razorpay-order/route.ts:24-42 | once the earlier checks pass, missing admin auth answers 500, a rejected token 401 or 500, a missing body 500, a malformed payload 400 and another user's id 403 |
| RazorpayOrder.Status | src/app/api/razorpay-order/route.ts:20-71 | every error answer has a 4xx or 5xx status |
| RazorpayOrder.ParsePayload | src/app/api/razorpay-order/route.ts:9-36 | valid iff planId is in the enum and userId is a non-empty string |
| RazorpayOrder.Options | src/app/api/razorpay-order/route.ts:52-60 | the amount is price × 100 in INR, the receipt is stamped with the time, and the notes carry the user and the plan |
| RazorpayOrder.Post | src/app/api/razorpay-order/route.ts:14-73 | an order is returned with keyId iff the checks pass and creation succeeds; refusals answer their error; a failed creation answers 500 |
| RazorpayOrder.MissingKeysAreConfigurationError | src/app/api/razorpay-order/route.ts:15-21 | a missing key id or secret answers 500 for any request |
| RazorpayOrder.OrderIff | src/app/api/razorpay-order/route.ts:15-60 | an order is requested iff the keys are set, the token verifies, the payload parses and names the token's user; its amount, currency and notes follow the plan |
| RazorpayOrder.PlanAmounts | src/app/api/razorpay-order/route.ts:53 | Creator costs 19900 paise and Pro 59900 |
| RazorpayOrder.MismatchBeforePlanLookup | src/app/api/razorpay-order/route.ts:40-48 | a user mismatch answers 403 before the plan lookup, and the 404 is never given |
| StoryGenerator.StoriesLeft | src/components/story-generator.tsx:249 | positive iff the count is below the limit; for a subscribed record, exactly when generation is allowed; 0 for the canonical record |
| StoryGenerator.GateOnDocument | src/components/story-generator.tsx:72 | with the record derived as in the auth context, generation is allowed iff the document is subscribed and unexpired and its count is below its limit |
| StoryGenerator.QuotaAfterActivation | src/components/story-generator.tsx:72 | after activation and k attempts, generation is allowed iff k is below the plan's limit |
| StoryGenerator.Illustrate | src/components/story-generator.tsx:92-114 | one slot per page; only 0, 3, 6 and 9 are requested; each requested slot holds its own image result, and a failed image leaves only its slot empty |
| StoryGenerator.SlotsAreIndependent | src/components/story-generator.tsx:101-109 | changing one image result changes only its own slot |
| StoryGenerator.AllImagesGeneratedIff | src/components/story-generator.tsx:134-136 | the save gate passes iff there are at least 10 slots and slots 0, 3, 6 and 9 are filled |
| StoryGenerator.TwelvePageDraftSaveable | src/components/story-generator.tsx:89-136 | a 12-page draft can be saved iff its four images arrived |
| StoryGenerator.StorageUploader | src/components/story-generator.tsx:157 | each upload is `uploadImage` of that slot's URL for the user |
| StoryGenerator.UploadFrom | src/components/story-generator.tsx:155-162 | succeeds iff every needed upload does; then one entry per slot, each the upload's URL exactly where a designated data-URI slot needed one and null elsewhere; a failure is some needed upload's error |
| StoryGenerator.Present | src/components/story-generator.tsx:164 | a URL is kept iff some slot holds it |
| StoryGenerator.PresentAppend | src/components/story-generator.tsx:164 | the filter keeps order and multiplicity: it distributes over concatenation, keeps a slot's URL and drops a null |
| StoryGenerator.ChooseCover | src/components/story-generator.tsx:164-167 | an uploaded URL when there is one, else the placeholder |
| StoryGenerator.AssemblePages | src/components/story-generator.tsx:169-180 | one page per draft page, in order, with pageNumber its index and the text and prompt kept; imageUrl present exactly where an upload came back, and equal to it |
| StoryGenerator.StoryData | src/components/story-generator.tsx:182-191 | the user's id, the draft title, the pages and cover, the chosen age group and theme, the email or "AI Storyteller" as author, and the reading level "Intermediate" |
| StoryGenerator.SubmittedImagesAreUploads | src/components/story-generator.tsx:155-180 | a page of a submitted story has an image iff its slot needed an upload, and then it is that upload's URL |
| StoryGenerator.FailedUploadStopsSave | src/components/story-generator.tsx:155-214 | the submission fails iff some needed upload fails, and it then carries that upload's message |
| StoryGenerator.UninitializedStorageStopsSave | src/lib/storage.ts:12-14 | in the generator's save, with storage missing, any needed upload stops the save with "Firebase Storage is not initialized." |
| StoryGenerator.SubmissionNeverMismatches | src/components/story-generator.tsx:189-193 | the client sends its own uid, so the server never refuses it for a user mismatch |
| StoryGenerator.DraftSheetsDropLastPage | src/components/story-generator.tsx:296-329 | as written: for an even page count n, there are (n-1)/2 + 2 sheets and page n-1 is on none |
| StoryGenerator.TwelvePageDraftHidesPageEleven | src/components/story-generator.tsx:310-318 | the 12-page draft never shows page 11; the corrected layout does |
| StoryGenerator.BookSheetsShowEveryPage | src/components/story-generator.tsx:296-329 | corrected layout: every page appears on some sheet, and only real pages appear |
| StoryGenerator.BuildSheets | src/components/story-generator.tsx:296-329 | the push loop builds exactly the corrected sheet list, with the trailing single sheet that the saved-story viewer adds at src/app/story/[id]/story-view.tsx:108-127 |
| StoryGenerator.Generator.constructor | src/components/story-generator.tsx:41-48 | a closed dialog with no draft, no slots and nothing saved |
| StoryGenerator.Generator.StartGenerating | src/components/story-generator.tsx:82-85 | loading, no draft, no slots, images pending |
| StoryGenerator.Generator.GenerateInitialStory | src/components/story-generator.tsx:62-128 | without a user nothing changes; a failed gate closes the dialog with no increment and no text call; otherwise the count is incremented (if the database is configured) before the text call, is not undone on failure, and a story's slots are settled |
| StoryGenerator.Generator.HandleSave | src/components/story-generator.tsx:131-218 | nothing without a draft and a user; refused while illustrations are missing; otherwise an upload failure, a refusal or a missing or empty id is reported; saved becomes true only when the server returns a non-empty id, which is kept |
| StoryGenerator.Generator.HandleOpenChange | src/components/story-generator.tsx:220-234 | opening keeps the draft; closing clears the draft, slots, flags and saved id |
| StoryGenerator.Generator.HandleGenerateAnother | src/components/story-generator.tsx:236-243 | clears the draft, slots and saved state, and leaves the dialog and loading flags as they are |

## Left out

- AI flows (text, image, definitions, similar stories): their results are inputs. A draft is a
  `Result<Draft, string>`, and images are a function from slot index to `Option<string>`.
- HMAC-SHA256 (RFC 2104) and token verification: uninterpreted function parameters. Only the
  equality check, the message `orderId|paymentId` and the two token error codes are modelled.
- Firebase initialisation, listener registration and unsubscription: the listeners are methods
  called with the snapshot, and stale snapshots for another uid are ignored.
- `Promise.all` over the image and upload promises: each slot is processed in index order. When
  several uploads fail, the lowest failing index's message is reported. In the source the first
  rejection in time wins.
- Dates: the clock is an integer in milliseconds. `setDate(+30)` is 30 × 86 400 000 ms, so
  daylight-saving shifts are not modelled. Both `new Date()` calls in the activation route read
  the same instant.
- `Math.random`: a real `pick` in [0, 1), and `floor(pick × count)` selects the cover.
- Plan descriptions and feature lists: they do not influence any decision.
- zod's `details` arrays and the exact wording of zod's own messages, beyond those the schemas
  set: not modelled.
- JavaScript `NaN` and `Infinity`, and UTF-16 lengths: numbers are reals, and lengths count
  Dafny characters.
- StoriesView.StoriesView.OnSnapshot: the in-place `Array.prototype.sort` is modelled as a functional
  insertion sort. The contract states only permutation and newest-first order for dated lists.
  It does not state the order among undated stories, because the source's comparator is
  inconsistent there and the result depends on the engine's sort.
- Page documents are a multiset, because a Firestore collection has no order. Auto-ids are
  modelled as fresh strings of increasing length, not as random ids.
- `revalidatePath`, `console` logging and toasts: not modelled. Toasts become outcome datatypes.
- StoryStore.StoryDb.SaveStory: the uniqueness of the auto-id is an invariant of the store, not
  a property of a random generator.
- StoryGenerator.Generator.HandleSave: the server action is the parameter `save`, because the
  call crosses the network. Its server side is `StoryStore.StoryDb.SaveStory`.
- StoryGenerator.Generator.HandleSave: the upload call is an `Uploader` value.
  `StoryGenerator.StorageUploader` ties it to `Storage.UploadImage`.
- StoryGenerator.Generator.HandleOpenChange: the react-hook-form resets of prompt, age group,
  theme and style are not modelled, because the form's fields are not part of the model.
- StoryGenerator.Generator.HandleGenerateAnother: the `setValue('prompt', '')` reset of the form
  is not modelled, for the same reason.
- StoryGenerator.Generator.GenerateInitialStory: the intermediate `isLoading` and
  `isGeneratingImages` UI states are not stated; only the final state is.
- `signIn`, `logOut`, the redirect effects, the Razorpay checkout hook and the webhook route:
  they forward to libraries and hold no decision logic.
- The trigger click and `renderContent` markup, other than the sheet layout.

## Findings

| source | as written | input that shows it | evidently intended | confidence | as-written member | corrected member |
|---|---|---|---|---|---|---|
| src/components/story-generator.tsx:310-318 | the loop pairs pages (i, i+1) only while i < n-1 and adds no trailing single sheet, so for an even page count the last page is on no sheet | n = 12, the page count always requested at story-generator.tsx:89: pages 1..10 are paired and page 11 is never shown | a trailing single sheet for the last page, as the saved-story viewer adds at src/app/story/[id]/story-view.tsx:118-127 | not executed | StoryGenerator.DraftSheetsDropLastPage | StoryGenerator.BookSheetsShowEveryPage |
