# Second-hand book market mini-program: page logic in Dafny

This project models the logic of four page controllers of a campus second-hand
book market built as a mini-program over a hosted document database:

- **chatroom**: the chat page. Its live query feeds `onChange`, which reconciles
  an `init` snapshot or a batch of change records into the message feed. The
  page also has the send guard, the construction of the message document and of
  the relationship update, the two-party conversation filter, and the
  create-if-absent rule for the relationship record.
- **cart**: the cart page. It joins cart records with their goods records. It
  removes an item in place with `findIndex` + `splice`; when nothing matches,
  that removes the last item. It also has the login-popup and list state of
  `onShow`/`onHide`.
- **searchResult**: the search page. The keyword picks the queried field: a
  numeric keyword searches by ISBN, anything else by name. Each goods record
  found is decorated with a "new" flag (posted less than five days ago) and an
  introduction cut to 24 characters plus an ellipsis.
- **launchTrade**: the trade request page. It holds the booking decision: an
  empty price is rejected, and a pending trade blocks the booking. It also has
  the placeholder-image loop, in which `splice` inside `forEach` skips the
  element after each removed one. Finally it builds the trade record, writes the
  goods state update, formats the date with `formatDate`, and updates the form
  fields.

Database queries are inputs of the model: the contents of a collection are
passed in as a sequence. The database writes are results: the record to add,
or the update to apply. The current time and the date components are
parameters.

Page state that the source updates with `setData` is a `class` per page
(`ChatroomPage`, `CartPage`, `SearchResultPage`, `LaunchTradePage`, and
`DetailPage` for the page that opens the trade request). The JavaScript array
shared between `data.cartList` and `deleteGoods`'s `tempCartList` is the class
`CartArray`, which makes the in-place, aliased removal explicit. Three loops
are methods whose `while` loops are proved against a specification function:
the change-batch loop of `onChange`, `findIndex`, and the placeholder loop.
The pure expressions are functions: the sorts, the joins, `introductionFormat`,
`formatDate` and the booking decision.

Files:

- `wrappers.dfy`: `Option`.
- `query.dfy`: `where(...)` filters and the first answer of a query.
- `records.dfy`: the `goods` record and JavaScript truthiness of a price.
- `text.dfy`: digits, `indexOf`, and the first position of any of a set of characters.
- `chatroom.dfy`, `cart.dfy`, `search_result.dfy`, `launch_trade.dfy`: one module per page.

JavaScript's `Array.prototype.sort` is stable. `SortByTS`, a stable insertion
sort on `sendTimeTS`, stands for it. `StableSortCharacterized` proves it is the
only arrangement that is sorted and keeps the arrival order of equal
timestamps, so the model does not depend on this particular sort algorithm.

Two consequences of the code are proved rather than assumed:

- The feed is not deduplicated. A document delivered twice appears twice
  (`ChangeBatchKeepsDuplicates`, `InitReplayDuplicates`).
- An `init` event sorts only the snapshot documents and appends them after the
  existing feed, which is not re-sorted (`InitDoesNotResortPrefix`). After that,
  the feed may be out of order, and the next change batch re-sorts all of it:
  `NonEnqueueBatchLeavesFeed` says that a batch without `enqueue` records leaves
  the feed unchanged only when the feed is already sorted, and
  `UnsortedFeedResortedByBatch` shows an unsorted feed being re-sorted.

The keyword test of the search page, `!isNaN(Number(keyword))`, is modelled on
the StringNumericLiteral grammar of section 7.1.4.1 of ECMA-262 (ECMAScript
2023): surrounding StrWhiteSpaceChar characters are trimmed, and the rest is
empty, a signed decimal literal with optional fraction and exponent,
`Infinity` with an optional sign, or an unsigned `0x`, `0o` or `0b` integer.

## Model

| member | source | states |
|---|---|---|
| Query.Where | miniprogram/pages/cart/cart.js:92-96 | a `where` query answers those records of the collection that satisfy the condition, and no others |
| Query.FirstOfWhere | miniprogram/pages/cart/cart.js:99-113 | the first answer of a `where` query is the earliest matching record of the collection |
| Chatroom.InsertByTS | miniprogram/pages/chatroom/chatroom.js:70 | inserting into a feed sorted by `sendTimeTS` keeps it sorted and adds exactly that message |
| Chatroom.SortByTS | miniprogram/pages/chatroom/chatroom.js:70 | the sort result is ascending by `sendTimeTS` and a permutation of its input |
| Chatroom.SortKeepsTieOrder | miniprogram/pages/chatroom/chatroom.js:91 | the sort is stable: messages with equal `sendTimeTS` keep their arrival order |
| Chatroom.InsertKeepsTieOrder | miniprogram/pages/chatroom/chatroom.js:91 | one insertion step keeps the arrival order among messages with equal timestamps |
| Chatroom.WithTSMember | miniprogram/pages/chatroom/chatroom.js:91 | a message is in the run of its own timestamp exactly when it is in the feed |
| Chatroom.SortedByTieOrderUnique | miniprogram/pages/chatroom/chatroom.js:91 | two sorted feeds with the same messages per timestamp, in the same order, are equal |
| Chatroom.StableSortCharacterized | miniprogram/pages/chatroom/chatroom.js:70-91 | a feed is the sort result exactly when it is sorted and keeps the arrival order of equal timestamps |
| Chatroom.SortOfSorted | miniprogram/pages/chatroom/chatroom.js:91 | sorting a feed that is already sorted leaves it unchanged |
| Chatroom.Enqueued | miniprogram/pages/chatroom/chatroom.js:76-88 | the documents a batch pushes are at most as many as its records |
| Chatroom.Reconcile | miniprogram/pages/chatroom/chatroom.js:60-93 | `init` keeps the old feed as a prefix and follows it with a sorted permutation of the snapshot; any other event gives a sorted feed holding the old feed plus the enqueued documents |
| Chatroom.ApplyChangeBatch | miniprogram/pages/chatroom/chatroom.js:74-92 | the copy-push-sort loop yields the sort of the old feed followed by the enqueued documents |
| Chatroom.InitAppendsSortedSnapshot | miniprogram/pages/chatroom/chatroom.js:64-72 | `init` yields the old feed unchanged followed by the snapshot sorted stably by `sendTimeTS` |
| Chatroom.InitOnEmptyFeed | miniprogram/pages/chatroom/chatroom.js:66-71 | on an empty feed `init` yields a sorted permutation of the snapshot |
| Chatroom.InitDoesNotResortPrefix | miniprogram/pages/chatroom/chatroom.js:66-71 | an `init` after a later message leaves the feed out of order, because the old prefix is not re-sorted |
| Chatroom.ChangeBatchIsStableSortedUnion | miniprogram/pages/chatroom/chatroom.js:74-92 | a batch yields a sorted feed whose multiset is the old feed plus the enqueued documents, with arrival order kept among equal timestamps |
| Chatroom.EnqueuedAppend | miniprogram/pages/chatroom/chatroom.js:76-88 | the enqueued documents of two consecutive parts of a batch are those of the first part followed by those of the second |
| Chatroom.NoEnqueueNoDocs | miniprogram/pages/chatroom/chatroom.js:79-87 | a batch without `enqueue` records pushes nothing |
| Chatroom.IgnoredRecordNoDoc | miniprogram/pages/chatroom/chatroom.js:79-87 | a record that is not `enqueue` pushes nothing, wherever it sits in the batch |
| Chatroom.IgnoredRecordHasNoEffect | miniprogram/pages/chatroom/chatroom.js:79-87 | an `update`, `dequeue` or other non-`enqueue` record leaves the reconciled feed as it would be without it |
| Chatroom.NonEnqueueBatchLeavesFeed | miniprogram/pages/chatroom/chatroom.js:74-92 | a batch without `enqueue` records leaves a sorted feed exactly as it was |
| Chatroom.UnsortedFeedResortedByBatch | miniprogram/pages/chatroom/chatroom.js:74-92 | a feed left out of order by `init` is put back in timestamp order by a batch that enqueues nothing |
| Chatroom.EnqueuedCounts | miniprogram/pages/chatroom/chatroom.js:84-86 | every `enqueue` record pushes one document, duplicates included |
| Chatroom.ChangeBatchKeepsDuplicates | miniprogram/pages/chatroom/chatroom.js:84-86 | a batch grows the feed by exactly the number of `enqueue` records, and a document delivered twice appears twice |
| Chatroom.InitReplayDuplicates | miniprogram/pages/chatroom/chatroom.js:64-72 | replaying the same `init` snapshot duplicates every document |
| Chatroom.InitScenario | miniprogram/pages/chatroom/chatroom.js:64-72 | an out-of-order snapshot on an empty feed comes out in timestamp order |
| Chatroom.SortPairExample | miniprogram/pages/chatroom/chatroom.js:91 | two messages out of timestamp order come out swapped |
| Chatroom.SortThreeExample | miniprogram/pages/chatroom/chatroom.js:91 | a late message pushed after two ordered ones is sorted between them |
| Chatroom.EnqueueScenario | miniprogram/pages/chatroom/chatroom.js:74-92 | an enqueued message lands between the earlier and later messages of the feed |
| Chatroom.DequeueScenario | miniprogram/pages/chatroom/chatroom.js:79-87 | a `dequeue` record removes nothing from the feed |
| Chatroom.ConversationFilterSymmetric | miniprogram/pages/chatroom/chatroom.js:40-49 | the live-query filter is symmetric in the two parties and accepts exactly the messages whose sender and recipient are the two parties |
| Chatroom.RelationshipLookup | miniprogram/pages/chatroom/chatroom.js:205-218 | the lookup answers exactly the relationship records linking the two parties, in either order |
| Chatroom.SendPlan | miniprogram/pages/chatroom/chatroom.js:110-124 | an empty input writes nothing; any other input writes a document and a relationship update |
| Chatroom.SentDocInConversation | miniprogram/pages/chatroom/chatroom.js:118-154 | a sent document goes from me to the other party with the typed text, is seen by both live queries, and the update carries its content and `sendTimeTS` |
| Chatroom.UpdatedLookupLength | miniprogram/pages/chatroom/chatroom.js:136-154 | the update neither adds nor removes a record of the two parties |
| Chatroom.RelationshipUpdateKeepsOthers | miniprogram/pages/chatroom/chatroom.js:136-154 | every record that does not link the two parties is unchanged by the update, and the parties keep as many records as before |
| Chatroom.RelationshipShowsLastMessage | miniprogram/pages/chatroom/chatroom.js:136-154 | after a send, every relationship record of the two parties shows the message text and its timestamp |
| Chatroom.NewRelationship | miniprogram/pages/chatroom/chatroom.js:222-230 | a created record links the two parties, with empty last content and the current time |
| Chatroom.CreatedRelationshipIsFound | miniprogram/pages/chatroom/chatroom.js:204-236 | once created, the record is found by either party's lookup, so it is not created twice |
| Chatroom.ChatroomPage.OnLoad | miniprogram/pages/chatroom/chatroom.js:19-23 | my openid comes from the global user state and the other's from the page options; the feed starts empty |
| Chatroom.ChatroomPage.OnChange | miniprogram/pages/chatroom/chatroom.js:60-96 | the feed becomes the reconciliation of the old feed with the event |
| Chatroom.ChatroomPage.OnTextInput | miniprogram/pages/chatroom/chatroom.js:99-103 | the input field takes the typed text |
| Chatroom.ChatroomPage.OnSend | miniprogram/pages/chatroom/chatroom.js:106-134 | the writes are those of the send plan for the current input, and the input is cleared exactly when something was sent |
| Chatroom.ChatroomPage.CheckRelationship | miniprogram/pages/chatroom/chatroom.js:204-236 | a record is created exactly when the lookup finds none; otherwise the first record found is kept in the page |
| Cart.GoodsById | miniprogram/pages/cart/cart.js:99-113 | the goods of an id are a record with that `_id`, and they are absent exactly when no record has it |
| Cart.JoinCart | miniprogram/pages/cart/cart.js:111-114 | the join has the length and order of the cart records; item i spreads cart record i and any `bookDetail` is a goods record with its `goods_id` |
| Cart.JoinCartMatchesGoods | miniprogram/pages/cart/cart.js:99-114 | item i carries the first goods record whose `_id` is its `goods_id` |
| Cart.JoinCartWithoutGoods | miniprogram/pages/cart/cart.js:99-114 | item i has no `bookDetail` when no goods record has its `goods_id` |
| Cart.CartOf | miniprogram/pages/cart/cart.js:92-96 | the cart query answers exactly the owner's cart records |
| Cart.FindIndexOf | miniprogram/pages/cart/cart.js:124 | `findIndex` gives the first index with the `_id`, or -1 exactly when no item has it |
| Cart.Spliced | miniprogram/pages/cart/cart.js:126 | `splice(start, 1)` with a start in range (a negative one counted from the end, clamped at 0) removes exactly the element there: the elements before it stay in place, those after move down by one, and the multiset loses only that element; from a start past the end nothing changes |
| Cart.DeleteRemovesFirstMatch | miniprogram/pages/cart/cart.js:123-126 | when an item has the `_id`, exactly the first such item is removed, the length drops by one and the others keep their order |
| Cart.DeleteWithoutMatchDropsLast | miniprogram/pages/cart/cart.js:124-126 | when no item has the `_id`, the last item is removed; an empty list stays empty |
| Cart.CartArray.FindIndex | miniprogram/pages/cart/cart.js:124 | the search loop returns the index `findIndex` specifies |
| Cart.CartArray.Splice | miniprogram/pages/cart/cart.js:126 | the array changes in place to its `splice(start, 1)` result |
| Cart.CartPage.constructor | miniprogram/pages/cart/cart.js:7-12 | the page starts with empty user fields, the popup closed and `cartList` blank |
| Cart.CartPage.OnShow | miniprogram/pages/cart/cart.js:18-28 | the user fields are copied; when not logged in the popup opens and no list is loaded, otherwise the joined list is loaded |
| Cart.CartPage.OnHide | miniprogram/pages/cart/cart.js:30-35 | the popup closes and `cartList` becomes blank |
| Cart.CartPage.ShowNoLoginPopup | miniprogram/pages/cart/cart.js:38-40 | the popup opens |
| Cart.CartPage.CloseNoLoginPopup | miniprogram/pages/cart/cart.js:43-45 | the popup closes |
| Cart.CartPage.GetCartList | miniprogram/pages/cart/cart.js:90-119 | `cartList` becomes a new array holding the join of the user's cart records with their goods |
| Cart.CartPage.DeleteGoods | miniprogram/pages/cart/cart.js:122-131 | the very array `cartList` holds is changed in place to the `findIndex` + `splice` result; on a blank list the call fails and nothing changes |
| SearchResult.IntroductionFormat | miniprogram/pages/searchResult/searchResult.js:60-67 | a string longer than the limit becomes its first `length` characters plus the ellipsis; another string is returned unchanged; the result is at most `length` + 2 characters and starts like the input |
| SearchResult.IntroductionFormatIdempotent | miniprogram/pages/searchResult/searchResult.js:60-67 | formatting twice with the same length is formatting once |
| SearchResult.IntroductionFormatBoundary | miniprogram/pages/searchResult/searchResult.js:62-66 | exactly `length` characters are not cut; one more is cut |
| SearchResult.IsNewBoundary | miniprogram/pages/searchResult/searchResult.js:28-47 | a book exactly five days old is not new, one a millisecond younger is, and anything posted later than a new book is new |
| SearchResult.TrimStart | miniprogram/pages/searchResult/searchResult.js:18 | the result is a suffix of the keyword, only ECMAScript whitespace and line terminators are dropped, and it starts with neither |
| SearchResult.TrimEnd | miniprogram/pages/searchResult/searchResult.js:18 | the result is a prefix of the keyword, only ECMAScript whitespace and line terminators are dropped, and it ends with neither |
| SearchResult.ForeignCharNotNumeric | miniprogram/pages/searchResult/searchResult.js:18 | a keyword with a character that is neither whitespace nor used by any numeric literal (a CJK character, a letter other than hexadecimal digits, base prefixes and those of `Infinity`) is not numeric |
| SearchResult.DigitKeywordIsNumeric | miniprogram/pages/searchResult/searchResult.js:18 | a keyword of digits only is numeric |
| SearchResult.ExponentIsNumeric | miniprogram/pages/searchResult/searchResult.js:18 | `1e5` is numeric |
| SearchResult.HexIsNumeric | miniprogram/pages/searchResult/searchResult.js:18 | ` 0x1F`, with its leading space, is numeric |
| SearchResult.SignedInfinityIsNumeric | miniprogram/pages/searchResult/searchResult.js:18 | `-Infinity` is numeric |
| SearchResult.Decorated | miniprogram/pages/searchResult/searchResult.js:25-50 | a decorated record equals the original except for its introduction, which is at most 24 + 2 characters; it is new exactly when posted less than 432000000 ms ago |
| SearchResult.KeywordRouting | miniprogram/pages/searchResult/searchResult.js:17-57 | a numeric keyword lists exactly the goods whose ISBN is the keyword, any other keyword exactly those whose name is it |
| SearchResult.DecorationKeepsRecords | miniprogram/pages/searchResult/searchResult.js:25-50 | both branches keep length and order and change only `introduction` (limit 24) and `isNew` |
| SearchResult.SearchResultPage.OnLoad | miniprogram/pages/searchResult/searchResult.js:9-57 | the page keeps the keyword from its options and lists the decorated goods for it |
| LaunchTrade.DigitChar | miniprogram/pages/launchTrade/launchTrade.js:36 | a digit value is printed as its decimal digit |
| LaunchTrade.NatToDecimal | miniprogram/pages/launchTrade/launchTrade.js:36 | a number is printed as decimal digits without padding: one digit exactly below 10, a leading 0 only for 0 |
| LaunchTrade.DecimalRoundTrip | miniprogram/pages/launchTrade/launchTrade.js:36 | the printed digits read back as the number |
| LaunchTrade.ParseFields | miniprogram/pages/launchTrade/launchTrade.js:36 | three digit fields joined by '/' read back as their three values |
| LaunchTrade.FormatDateRoundTrip | miniprogram/pages/launchTrade/launchTrade.js:19-37 | the formatted date reads back as three '/'-separated fields: the year, the month counted from 1, and the day |
| LaunchTrade.FormatDateUnpadded | miniprogram/pages/launchTrade/launchTrade.js:34-37 | a month or day below 10 is printed with one digit, without a leading zero |
| LaunchTrade.SpliceSkipsNext | miniprogram/pages/launchTrade/launchTrade.js:102-106 | a placeholder is removed and the element that slides into its index is kept without being examined |
| LaunchTrade.SpliceKeeps | miniprogram/pages/launchTrade/launchTrade.js:102-106 | an element that is not the placeholder is kept |
| LaunchTrade.DropStep | miniprogram/pages/launchTrade/launchTrade.js:102-106 | one removal step preserves what the loop will leave |
| LaunchTrade.KeepStep | miniprogram/pages/launchTrade/launchTrade.js:102-106 | keeping an element preserves what the loop will leave |
| LaunchTrade.DropPlaceholders | miniprogram/pages/launchTrade/launchTrade.js:102-106 | the `forEach` + `splice` loop leaves exactly the list its skipping specification describes |
| LaunchTrade.RealImages | miniprogram/pages/launchTrade/launchTrade.js:103 | the real images include no placeholder and come from the list |
| LaunchTrade.ForEachSpliceKeepsRealImages | miniprogram/pages/launchTrade/launchTrade.js:102-106 | the loop keeps every non-placeholder URL in its relative order, never adds placeholders and never grows the list |
| LaunchTrade.LonePlaceholderRemoved | miniprogram/pages/launchTrade/launchTrade.js:102-106 | a placeholder not followed by another one is removed |
| LaunchTrade.RunHeadPair | miniprogram/pages/launchTrade/launchTrade.js:102-106 | of the first two placeholders of a run the first is removed and the second kept |
| LaunchTrade.ShortRunRemoved | miniprogram/pages/launchTrade/launchTrade.js:102-106 | a run of fewer than two placeholders leaves none |
| LaunchTrade.RunHalvedStep | miniprogram/pages/launchTrade/launchTrade.js:102-106 | two more placeholders in a run leave one more |
| LaunchTrade.PlaceholderRunHalved | miniprogram/pages/launchTrade/launchTrade.js:102-106 | a run of k adjacent placeholders leaves floor(k/2) of them |
| LaunchTrade.ForEachSpliceSplit | miniprogram/pages/launchTrade/launchTrade.js:102-106 | a list cut after a non-placeholder (or at the front) is processed as its two parts one after the other |
| LaunchTrade.RunAnywhereHalved | miniprogram/pages/launchTrade/launchTrade.js:102-106 | a run of k placeholders anywhere between real images leaves floor(k/2) of them, and the parts around it are processed independently |
| LaunchTrade.IsolatedPlaceholdersRemoved | miniprogram/pages/launchTrade/launchTrade.js:102-106 | when no two placeholders are adjacent, all are removed |
| LaunchTrade.AdjacentPlaceholdersSurvive | miniprogram/pages/launchTrade/launchTrade.js:102-106 | of two adjacent placeholders, one survives |
| LaunchTrade.TradesOf | miniprogram/pages/launchTrade/launchTrade.js:70-72 | the trade lookup answers exactly the trades of these goods |
| LaunchTrade.BookingRule | miniprogram/pages/launchTrade/launchTrade.js:62-98 | a falsy price is rejected; with a price, a trade is added exactly when no trade of these goods has state 0; an empty lookup leads to an add |
| LaunchTrade.NewTradeRecord | miniprogram/pages/launchTrade/launchTrade.js:107-121 | the record has state 0, the goods' `_id`, price and `_openid` as seller, the page's time and spot, and the goods' remaining fields |
| LaunchTrade.AddedTradeBlocksRebooking | miniprogram/pages/launchTrade/launchTrade.js:70-121 | once the trade is written, another request for the same goods is refused as booked |
| LaunchTrade.DetailPage.MarkBooked | miniprogram/pages/launchTrade/launchTrade.js:83-85 | the previous page's `bookDetail.state` becomes 1 and nothing else of it changes |
| LaunchTrade.LaunchTradePage.OnLoad | miniprogram/pages/launchTrade/launchTrade.js:7-21 | the page holds the parsed book details and today's date as trade date; the other fields keep their initial values |
| LaunchTrade.LaunchTradePage.DisplayCalendar | miniprogram/pages/launchTrade/launchTrade.js:24-26 | the calendar opens |
| LaunchTrade.LaunchTradePage.CloseCalendar | miniprogram/pages/launchTrade/launchTrade.js:29-31 | the calendar closes |
| LaunchTrade.LaunchTradePage.ConfirmCalendar | miniprogram/pages/launchTrade/launchTrade.js:40-45 | the calendar closes and the trade date becomes the formatted chosen date |
| LaunchTrade.LaunchTradePage.OnChangeTradePrice | miniprogram/pages/launchTrade/launchTrade.js:48-52 | only `bookDetail.price` changes |
| LaunchTrade.LaunchTradePage.OnChangeTradeSpot | miniprogram/pages/launchTrade/launchTrade.js:55-59 | only `trade_spot` changes |
| LaunchTrade.LaunchTradePage.AddTradeRecord | miniprogram/pages/launchTrade/launchTrade.js:101-150 | the placeholders are dropped from the image list in place, the trade record is built from the result, the goods state is set to 1 and the previous page's book is marked booked |
| LaunchTrade.LaunchTradePage.CommitForm | miniprogram/pages/launchTrade/launchTrade.js:62-98 | a falsy price writes and changes nothing; a pending trade marks the previous page's book as booked and writes nothing; otherwise the trade is added |

## Left out

- Database access (`where`/`get`, `watch`, `add`, `update`, `callFunction`) belongs to the hosted service. A collection's contents are parameters, and the answer of each `where(...).get()` is computed from them by `Query.Where`. Writes are returned values or state changes.
- Query.Where: the answer is assumed to be every matching record, in collection order. The hosted client's `get()` returns at most 20 records when no `limit` is given, and none of these queries gives one. Its order is not guaranteed either. The following lines name what this changes.
- Cart.CartOf: a user with more than 20 cart records sees only 20 of them in the source; the model lists all.
- SearchResult.KeywordRouting: more than 20 matching goods are cut to 20 in the source; the model lists all.
- Chatroom.RelationshipLookup: the page only looks at whether the lookup is empty and at its first record, so the cap matters only through the order of the answer, which the model takes as collection order.
- LaunchTrade.TradesOf: the model sees every trade of the goods. In the source a pending trade past the first 20 trades would not block a booking (`BookingRule`).
- LaunchTrade.BookingRule: stated over the complete trade list, as `TradesOf` gives it; see the line above for what the 20-record cap changes.
- Promises, `async`/`await` and `Promise.all`: each handler is modelled as if its queries answered at once and in order. A failed write is not modelled.
- Chatroom.ChatroomPage.OnSend: the input is cleared as if the `add` succeeded, because the asynchronous failure path is not modelled.
- The read-then-write race between two buyers booking the same goods is left out, since it needs concurrency; only the sequential decision is modelled.
- `Date.now()` and `new Date()`, including time zones: times are integer milliseconds and dates are (year, month index, day) triples of natural numbers, so negative years are not covered.
- SearchResult.IsNumericKeyword: numeric separators (`1_000`) are rejected, as `Number()` rejects them; the numeric value itself is not computed, only whether it is `NaN`.
- String lengths count Dafny characters, not UTF-16 code units, so `introductionFormat` differs from the source on characters outside the Basic Multilingual Plane.
- LaunchTrade.AnyPending compares `state` as an integer. The loose `== 0` of the source also accepts values such as `'0'` or `false`, and these are not modelled.
- Records.Price covers absent, integer and text prices. A floating-point or `NaN` price is not modelled.
- Toasts, `Dialog`, `navigateBack`/`getCurrentPages`, `pageScrollToBottom` and image `preview` are user-interface only. The previous page reached through the page stack is the `DetailPage` parameter.
- The login flow (`userLogin`, `getUserProfile`, `getOpenid`, storage, `app.globalData`) and `getBothAvatar` are input and output only. The global openid and the login status are parameters.
- The relationship queries of the chat page use the global openid; the model uses the page's `openid`, which `onLoad` sets from that same global.
- The scanISBN page only wraps the camera and a cloud function, and the trade acceptance handler is empty, so neither is part of this model.
