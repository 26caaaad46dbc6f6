# Bulletin-board backend: derived views, in Dafny

This project models four helpers of a social-network backend. Each one turns facts that the database or the API already produced into the shape a client sees:

- **formatConversations** (`src/helpers/message.js`) takes a viewer's message history and splits it into one conversation per counterpart. A counterpart is the other party of a message as the viewer sees it. Module `Conversations`, file `conversations.dfy`.
- **formatResponse** (`src/apollo.js`) is the response hook. For the `HomePagePosts` and `ExplorePagePosts` queries it re-ranks the post list by the request's `sort` variable (`hot`, `top` or `controversial`) using lodash's stable `_.orderBy`, with every criterion descending. The sort is in module `FeedRanking` (`feed_ranking.dfy`). The hook itself is in module `FormatResponse` (`format_response.dfy`).
- **setCreatedSince** (`src/resolvers/common.js`) builds a label such as "3 days ago" from a database interval. Module `CreatedSince`, file `created_since.dfy`.
- **setPostedSince** (`src/helpers/post.js`) builds the same kind of label from elapsed milliseconds and writes it into the post's `postedSince` field. Module `PostedSince`, file `posted_since.dfy`.

Both age helpers write "<count> <unit> ago". Module `TimeLabel` (`time_label.dfy`) defines that text once, together with a parser for it. The round-trip lemma shows that a label determines its count and unit and is never "just now". `Wrappers` (`wrappers.dfy`) provides `Option` for JavaScript's null/undefined and `Result` for thrown errors.

How each source file is modelled:

- `formatConversations` changes a local array step by step, so it is a method with a loop. Its invariant says the conversations built so far equal `Grouped`, the declarative reference grouping, applied to the messages seen so far. `findIndex` is the method `FindIndex`.
- `formatResponse` builds new values, so it is a function that returns `Result`. The two `TypeError`s it throws on the shape of the response and the request (no `data`, no `variables`) are the `Failure` cases.
- `setCreatedSince` is a pure function.
- `setPostedSince` assigns a field of the post it is given. It is therefore the method `Post.SetPostedSince`, which may modify only `postedSince`. The function `PostedSinceText` states what the method writes.

Two behaviours of the code are easy to miss:

- **Counterpart rule.** The counterpart is the sender whenever the viewer did not send the message. So a message between two other users goes under its sender, and a message to oneself goes under the viewer's own id.
- **Default sort.** Any `sort` other than the three ranked ones, including none and "new", leaves the list exactly as the database returned it; nothing sorts it by `created_at` here.

## Model

| member | source | states |
|---|---|---|
| `Conversations.Counterpart` | src/helpers/message.js:5-8 | The counterpart is the sender unless the viewer sent the message, else the recipient; it is the viewer exactly for a self-message |
| `Conversations.FindIndex` | src/helpers/message.js:10-12 | Returns -1 exactly when no conversation has the id, else the first index whose `user_id` is the id |
| `Conversations.FormatConversations` | src/helpers/message.js:1-25 | The loop's result is the reference grouping `Grouped` of the messages by counterpart |
| `Conversations.GroupedPush` | src/helpers/message.js:14-15 | When the counterpart already has a conversation, grouping one more message appends it to the end of that conversation and changes nothing else |
| `Conversations.GroupedAppend` | src/helpers/message.js:16-20 | When the counterpart is new, grouping one more message adds a conversation `{user_id, [message]}` at the end |
| `Conversations.GroupedDistinct` | src/helpers/message.js:10-20 | Conversation `user_id`s are pairwise distinct |
| `Conversations.GroupedCounterparts` | src/helpers/message.js:10-15 | Every message in a conversation has that conversation's `user_id` as its counterpart |
| `Conversations.GroupedPermutation` | src/helpers/message.js:4-22 | All conversations' messages together are a permutation of the input: none lost, none duplicated |
| `Conversations.GroupedEmpty` | src/helpers/message.js:2-24 | Empty input gives an empty conversation list |
| `Conversations.FirstSeenOrder` | src/helpers/message.js:16-20 | Conversations appear in the order their counterpart first occurs in the input |
| `Conversations.FirstSeenMembers` | src/helpers/message.js:16-20 | An id is a conversation key exactly when it is the counterpart of some message |
| `Conversations.FirstSeenDistinct` | src/helpers/message.js:10-20 | First-seen order never repeats an id, so conversation keys are distinct |
| `Conversations.ThreadMembers` | src/helpers/message.js:10-15 | A message of a counterpart's thread comes from the input and has that counterpart; (the input order within a conversation comes from `Thread`'s definition as an order-keeping filter of the input, not from this lemma) |
| `Conversations.ThreadAbsent` | src/helpers/message.js:16-20 | A counterpart not met before has no earlier messages, so a new conversation starts with just the current message |
| `Conversations.FlattenPush` | src/helpers/message.js:14-15 | Pushing a message into one conversation adds exactly that message to the multiset of all messages |
| `FeedRanking.StartOfDay` | src/apollo.js:33-36 | The `hot` day criterion is a multiple of one day and the latest such multiple not after the timestamp |
| `FeedRanking.OrderByPermutation` | src/apollo.js:28-56 | The ranked list is a permutation of the list that was sorted |
| `FeedRanking.OrderByDescending` | src/apollo.js:28-52 | The ranked list is lexicographically non-increasing in the strategy's criteria |
| `FeedRanking.OrderByStable` | src/apollo.js:28-52 | Posts that tie on every criterion keep their input order |
| `FeedRanking.TopByTotal` | src/apollo.js:43-45 | `top`: `reactions.total` never increases along the list |
| `FeedRanking.ControversialByDislikesThenLikes` | src/apollo.js:46-52 | `controversial`: descending by `reactions.dislikes`, then `reactions.likes` |
| `FeedRanking.HotByDayThenTotals` | src/apollo.js:29-42 | `hot`: descending by creation day, then `reactions.total`, then `comments_info.total` |
| `FormatResponse.FormatResponse` | src/apollo.js:16-62 | Other operations return the response unchanged. A missing `data` or `variables` throws. Otherwise `data` is replaced by a map with the single result key, and the other top-level fields are kept |
| `FormatResponse.FeedResultKeys` | src/apollo.js:24 | The result keys are "homePagePosts" and "explorePagePosts" |
| `FormatResponse.FormatResponseRanks` | src/apollo.js:26-61 | For a ranked `sort` the answered list is a permutation of the input list (day-truncated for `hot`), descending in the criteria and stable on ties; a null list ranks as empty |
| `FormatResponse.FormatResponseKeepsOrder` | src/apollo.js:53-61 | Any other `sort` value answers with the input list unchanged |
| `FormatResponse.HotRankingIgnoresTimeOfDay` | src/apollo.js:33-36 | The in-place truncation of `created_at` changes the returned posts but not their order |
| `TimeLabel.Suffix` | src/resolvers/common.js:13-23 | The suffix is plural exactly when the count is greater than 1 |
| `TimeLabel.LabelRoundTrip` | src/resolvers/common.js:28 | Count text followed by suffix reads back as the same count and unit |
| `TimeLabel.LabelInjective` | src/helpers/post.js:35 | Two labels are equal exactly when their counts and units are |
| `TimeLabel.LabelIsNotJustNow` | src/resolvers/common.js:24-28 | No count label equals "just now" |
| `CreatedSince.CreatedSinceText` | src/resolvers/common.js:2-6 | The result is null exactly when there is no `age` |
| `CreatedSince.LeadingUnit` | src/resolvers/common.js:12-23 | An interval with a nonzero year, day, hour or minute has a leading unit, and the label shows that unit's count |
| `CreatedSince.CreatedSinceShows` | src/resolvers/common.js:12-23 | The label shows count n of unit u exactly when u is the most significant nonzero of years > days > hours > minutes and n is its value |
| `CreatedSince.CreatedSinceJustNow` | src/resolvers/common.js:24-26 | "just now" exactly when years, days, hours and minutes are all zero |
| `CreatedSince.CreatedSinceIgnoresOtherFields` | src/resolvers/common.js:8 | Months, seconds and milliseconds never change the result |
| `PostedSince.BandOf` | src/helpers/post.js:15-33 | The chosen band u satisfies one u <= elapsed < one of the next unit |
| `PostedSince.BandUnique` | src/helpers/post.js:15-33 | The bands partition the elapsed times of one minute or more |
| `PostedSince.RoundHalfUp` | src/helpers/post.js:19 | `Math.round(n / d)`: the result r satisfies r·d − d/2 <= n < r·d + d/2 |
| `PostedSince.PostedSinceJustNow` | src/helpers/post.js:9-17 | "just now" exactly for elapsed times under one minute, including negative ones |
| `PostedSince.ShownCountBounds` | src/helpers/post.js:18-31 | The count is at least 1 and at most 60 minutes, 24 hours, 30 days or 12 months |
| `PostedSince.MaxCountReached` | src/helpers/post.js:18-31 | Each band's maximum is shown just before the next band starts, for example "60 minutes ago" |
| `PostedSince.PostedSinceShows` | src/helpers/post.js:18-35 | The text is the rounded count followed by the band's suffix and reads back as that count and unit |
| `PostedSince.Post.SetPostedSince` | src/helpers/post.js:2-36 | Writes only `postedSince`, with the text for `now − postedOn` (an invalid date gives "NaN year ago") |

## Left out

- `startServer` in `src/apollo.js` is not modelled: HTTP and subscription server wiring, the `PubSub` instance and token verification for each connection. So is the rest of the repository: SQL and Mongo resolvers, JWT/bcrypt, email, storage and OAuth. All of it is I/O or calls into libraries this model cannot see.
- `Date.now()` becomes the parameter `now`. Dates are integer milliseconds, and an invalid date is `None`, standing for NaN.
- `setHours(0, 0, 0, 0)` works in the server's local time zone. The model truncates to UTC days instead (`t − t mod 86400000`).
- FormatResponse.Rank: the source's `hot` criterion truncates the caller's own post objects in place. The model returns truncated copies, so that aliasing is not captured. `HotRankingIgnoresTimeOfDay` shows the order is the same either way.
- FormatResponse.LowerCase: lower-cases ASCII letters only. That is enough for the two operation names it is applied to.
- FeedRanking.FeedPost: `created_at` is assumed to be a valid Date on every listed post, and no listed post is null. The TypeError the `hot` criterion throws through `post.created_at.setHours(0, 0, 0, 0)` on a null post or on a missing or non-Date `created_at` is not modelled.
- FeedRanking.Criteria: the reaction and comment totals are always-present integers. lodash's ordering of `undefined` or NaN criteria is not modelled.
- PostedSince.RoundHalfUp: uses exact integer arithmetic. Double-precision `elapsed / unit` could land on a different side of a half for elapsed times beyond about 10^5 years.
- TimeLabel.IntText: gives plain decimal text. JavaScript switches to exponent notation only at 10^21 or more, which these counts never reach.
- Conversations.FormatConversations: conversations hold message values. The source's sharing of the input message objects with the result is not modelled.
- CreatedSince.CreatedSinceText: does not model the promise wrapper of the `async` resolver or its unused `args`/`req`/`res` parameters.
