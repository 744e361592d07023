# BotVoronka services, modelled in Dafny

BotVoronka is a back end for Telegram sales funnels. An owner builds a
*funnel*, which is an ordered set of *nodes*: messages, button menus, delays
and payment offers. The bot plays the funnel's first node to whoever opens
its `t.me/<bot>?start=<funnel id>` link. Visitor *sessions* feed the
analytics. Owners pay for a PRO subscription through payments that a
provider webhook settles. Owners log in with the Telegram login widget.

This project models six of the services behind that, and the funnel-list
query DTO. Each one is a Dafny module:

| module | models |
|---|---|
| `Store` (store.dfy) | the shared database: one map per table, keyed by id (subscriptions by user id), the schema's constraints as `Db.Valid`, and the funnel ownership check |
| `Tables` (tables.dfy) | a `findMany` with `where` and `orderBy`: the selected ids, each once, in key order |
| `FunnelQuery` (funnel_query.dfy) | the validation and defaults of the funnel list query |
| `Funnels` (funnels.dfy) | the funnels service: paged listing, owner-checked read/update/remove, templates |
| `Nodes` (nodes.dfy) | the nodes service: node CRUD behind the funnel and node checks |
| `Analytics` (analytics.dfy) | per-funnel and per-user statistics, and the per-day breakdown |
| `Telegram` (telegram.dfy) | the `/start` handler, node rendering, and the bot deep link |
| `Billing` (billing.dfy) | plans and limits, subscribe, payments, the webhook, and payment history |
| `Auth` (auth.dfy) | Telegram login: the widget signature check, the user upsert, and refresh |

`Common` and `Entities` hold the shared helpers and the rows of the tables.

State that the services change in place is the `Store.Db` class. Its maps
are reassigned by methods with `modifies db`. Each mutation states its
whole new state. A two-state predicate (`OnlyNodesChanged`, and so on) says
which tables it leaves alone. Every mutation keeps `Db.Valid()`. Read
paths are methods too, because the query behind them is the insertion
loop of `Tables.FindMany`. Their results are tied to the tables: exactly
the matching rows, each once, in the requested order. Pure computations
(validation, rendering, statistics, the signature check string) are
functions, with lemmas relating them.

The outside world enters as parameters:
- the clock: `now`, `nowMs`
- generated ids and UUIDs: `newId`, `uuid`, `nodeIds`
- the calendar day of an instant: `dayOf`
- the HMAC-SHA-256 signature: `sign`
- configuration: `botToken`, the bot `username`

No service writes a session, and `/start` renders only the funnel's first
node (`Telegram.OnlyFirstNodeRendered`).

## Model

| member | source | states |
|---|---|---|
| Store.CheckFunnelAccess | src/analytics/analytics.service.ts:10-24 | NotFound exactly when the funnel is missing, Forbidden exactly when it belongs to someone else, otherwise the funnel itself |
| Tables.FindMany | src/nodes/nodes.service.ts:52-55 | a `findMany`: every row the `where` keeps appears once and nothing else, ordered by the `orderBy` key |
| Tables.SkipTake | src/funnels/funnels.service.ts:69-70 | `skip`/`take`: at most `take` rows, the window starting at `skip`, empty past the end |
| FunnelQuery.Validate | src/funnels/dto/funnel-query.dto.ts:6-24 | a query passes exactly when page ≥ 1, 1 ≤ limit ≤ 50 and the status is a status name; defaults page 1 and limit 10; search is passed through; a failure is BadRequest |
| FunnelQuery.ParseStatus | src/funnels/dto/funnel-query.dto.ts:19-21 | a status literal is accepted only as the name of that status |
| FunnelQuery.ParseStatusName | src/funnels/dto/funnel-query.dto.ts:19-21 | every status is accepted under its own name |
| FunnelQuery.ValidateIdempotent | src/funnels/dto/funnel-query.dto.ts:6-24 | a validated query validates to itself again |
| Funnels.TemplateOf | src/funnels/funnels.service.ts:16-52 | the template under each key of the table carries that key and at most five nodes |
| Funnels.GetTemplates | src/funnels/funnels.service.ts:132-139 | one entry per template in table order, with its key as id, its name and description, and its node count |
| Funnels.TemplatesListed | src/funnels/funnels.service.ts:16-52 | the listing is course, consultation, leadmagnet and empty, with 5, 4, 3 and 0 nodes |
| Funnels.FindTemplate | src/funnels/funnels.service.ts:143-147 | a template is found exactly when one of the table's own keys names it, and it has at most five nodes |
| Funnels.FindTemplateInTable | src/funnels/funnels.service.ts:143-147 | a key finds a template exactly when some entry of the table has that key, and what it finds is that entry |
| Funnels.TemplateNodeRows | src/funnels/funnels.service.ts:159-167 | node i of a template becomes a row with the template node's type, name and content, the new funnel's id, and position (0, 100·i) |
| Funnels.CreateFromTemplateAsWritten | src/funnels/funnels.service.ts:142-174 | the lookup as written: only a key that is neither a template nor an inherited object member ends in NotFound with nothing written |
| Funnels.InheritedKeyPassesGuard | src/funnels/funnels.service.ts:143-156 | "toString" names no template, yet as written it passes the guard and a funnel is created before the node step throws |
| Funnels.TotalPagesBounds | src/funnels/funnels.service.ts:83 | `ceil(total / limit)` is 0 exactly when there are no rows; the pages cover every row and the last page is not empty |
| Funnels.PageHoldsRowsIff | src/funnels/funnels.service.ts:56-83 | the skipped rows leave something on the page exactly when the page is at most the page count |
| Funnels.FindAll | src/funnels/funnels.service.ts:54-86 | every funnel of the owner that the filter keeps, once each, newest first; the page is the skip/limit window of that list with each funnel's node count; the meta holds the total, the page, the limit and the page count |
| Funnels.FindOne | src/funnels/funnels.service.ts:88-103 | NotFound, then Forbidden, as the funnel check; otherwise the funnel with exactly its nodes, oldest first |
| Funnels.ApplyUpdate | src/funnels/funnels.service.ts:117-120 | each field the DTO carries replaces that column; id, owner and creation time are kept |
| Funnels.Create | src/funnels/funnels.service.ts:105-112 | one new DRAFT funnel owned by the caller; no other table changes |
| Funnels.Update | src/funnels/funnels.service.ts:114-121 | the access check first, with nothing written on failure; otherwise only that funnel is rewritten |
| Funnels.Remove | src/funnels/funnels.service.ts:123-129 | the access check first; on success the funnel and, by the cascade, exactly its nodes and sessions are deleted |
| Funnels.AddRowsFacts | src/funnels/funnels.service.ts:160-167 | `createMany` with fresh, distinct ids: the node table gains exactly those ids, each holding its row, every existing node is kept as it was, and every node still sits under its id in an existing funnel |
| Funnels.CreateWithNodes | src/funnels/funnels.service.ts:150-167 | the funnel is added under its id and the rows under the first ids; no other table changes and the database stays valid |
| Funnels.CreateFromTemplate | src/funnels/funnels.service.ts:142-174 | an unknown template is NotFound before any write; otherwise one DRAFT funnel named by the caller (or after the template) and exactly the template's nodes in order |
| Nodes.CheckNodeAccess | src/nodes/nodes.service.ts:32-47 | NotFound exactly when the node is missing, Forbidden exactly when its funnel is someone else's, otherwise the node |
| Nodes.NodeAccessIsFunnelAccess | src/nodes/nodes.service.ts:32-47 | a node passes the node check exactly when its funnel passes the funnel check |
| Nodes.ApplyUpdate | src/nodes/nodes.service.ts:77-80 | each field the DTO carries replaces that column; id, funnel, type and creation time are kept |
| Nodes.FindAllByFunnel | src/nodes/nodes.service.ts:49-56 | the funnel check's error, or exactly the funnel's nodes, once each, oldest first |
| Nodes.NodesOfFunnel | src/nodes/nodes.service.ts:52-55 | exactly the funnel's nodes, once each, oldest first |
| Nodes.Create | src/nodes/nodes.service.ts:62-72 | the funnel check, with nothing written on failure; otherwise one new node in that funnel, at (0, 0) when no position is given |
| Nodes.Update | src/nodes/nodes.service.ts:74-81 | the node check, with nothing written on failure; otherwise only that node is rewritten |
| Nodes.Remove | src/nodes/nodes.service.ts:83-89 | the node check, with nothing written on failure; otherwise only that node is deleted |
| Analytics.CountWhere | src/analytics/analytics.service.ts:53-56 | a filter's count is at most the number of sessions |
| Analytics.CountWhereMonotone | src/analytics/analytics.service.ts:53-54 | a weaker filter counts at least as many sessions |
| Analytics.StatusPartition | src/analytics/analytics.service.ts:53-56 | active, completed (COMPLETED or PAID) and abandoned sessions together are all the sessions |
| Analytics.ConversionOf | src/analytics/analytics.service.ts:63-68 | a conversion is "none started" exactly when no session started; otherwise it is the ratio of the counts |
| Analytics.Summarize | src/analytics/analytics.service.ts:52-68 | started is the session count; paid ≤ completed ≤ started; active + completed + abandoned = started; each counter counts its statuses; revenue is the paid amounts; conversionToComplete is completed over started and conversionToPaid paid over started, each none exactly when there are no sessions |
| Analytics.Recent | src/analytics/analytics.service.ts:85-92 | the first min(20, n) sessions in order, fields copied, a visitor with no name shown as "Аноним" |
| Analytics.Tally | src/analytics/analytics.service.ts:100-117 | a day's counters satisfy paid ≤ completed ≤ started ≤ number of sessions |
| Analytics.TallyOtherDay | src/analytics/analytics.service.ts:100-105 | a day on which no session started has all counters at zero |
| Analytics.InsertDay | src/analytics/analytics.service.ts:120-122 | inserting a day keeps the list in ascending date order and adds exactly that day |
| Analytics.DaysOfStep | src/analytics/analytics.service.ts:100-105 | each further session adds its own day to the set of days |
| Analytics.Group | src/analytics/analytics.service.ts:98-117 | the grouped days are exactly the sessions' days, each with that day's tally |
| Analytics.SortDays | src/analytics/analytics.service.ts:120-122 | `Object.entries` sorted by date: ascending, one entry per grouped day, with its counters |
| Analytics.GroupByDay | src/analytics/analytics.service.ts:97-123 | ascending dates, exactly the days on which sessions started, each with that day's counters |
| Analytics.SumTallyStep | src/analytics/analytics.service.ts:107 | a further session adds one start to the sum for each listed occurrence of its day |
| Analytics.OccursOnce | src/analytics/analytics.service.ts:120-122 | a date occurs in a list of distinct dates once if present, else not at all |
| Analytics.StartedSumsToSessions | src/analytics/analytics.service.ts:100-117 | over distinct dates covering every session's day, the started counters add up to the session count |
| Analytics.SumStartedIsTally | src/analytics/analytics.service.ts:120-122 | the started column of the breakdown is the sum of the per-date tallies |
| Analytics.GroupByDayCountsEverySession | src/analytics/analytics.service.ts:97-123 | the daily started counters of the breakdown add up to the number of sessions: every session is counted on exactly one day |
| Analytics.GetFunnelAnalytics | src/analytics/analytics.service.ts:27-94 | the funnel check's error, or: the funnel's sessions in the date range, once each, newest first; the summary and recent list of those sessions; and their per-day breakdown |
| Analytics.SessionsOf | src/analytics/analytics.service.ts:30-49 | exactly the funnel's sessions inside the optional bounds, once each, ordered by the key |
| Analytics.StatsOf | src/analytics/analytics.service.ts:155-177 | a funnel's started count is its session count; completed and paid count their statuses, with paid ≤ completed ≤ started; revenue is the paid amounts; conversion is paid/started |
| Analytics.ActiveCount | src/analytics/analytics.service.ts:185 | the active funnels are at most all funnels |
| Analytics.TotalsBounds | src/analytics/analytics.service.ts:149-165 | totals keep paid ≤ completed ≤ started; total started is 0 exactly when every funnel started 0 |
| Analytics.ReportOf | src/analytics/analytics.service.ts:154-179 | one funnel's report: its id, name, status and node count, and the statistics of its sessions in range, each counted once |
| Analytics.TotalsSnoc | src/analytics/analytics.service.ts:162-165 | one more report adds its four stats to the running totals |
| Analytics.Reports | src/analytics/analytics.service.ts:149-180 | one report per funnel in order, each the report of that funnel over its sessions in range counted once, and the running totals are the sums of the reports |
| Analytics.ReportsForAt | src/analytics/analytics.service.ts:154-179 | report i of the list is the report of funnel i over its sessions in range counted once, with paid ≤ completed ≤ started |
| Analytics.SameSessionsSameSums | src/analytics/analytics.service.ts:155-160 | two lists holding the same sessions, each once, have the same length, the same count under any status test and the same revenue |
| Analytics.ReportForDetermined | src/analytics/analytics.service.ts:154-179 | a funnel's report is fixed by the tables and the range: any two lists of its sessions that meet the report's description give the same report |
| Analytics.UserReports | src/analytics/analytics.service.ts:138-179 | over the user's funnels, listed once each: a report for each of them and no others, each that funnel's report over its sessions in range counted once, no id twice |
| Analytics.SummaryOf | src/analytics/analytics.service.ts:182-193 | the summary's counters are the totals; paid ≤ completed ≤ started; the overall conversion is none exactly when no funnel started a session, otherwise total paid over total started |
| Analytics.GetUserAnalytics | src/analytics/analytics.service.ts:126-196 | one report for each of the user's funnels and no others, each that funnel's report over its sessions in range counted once, no id twice; the summary is the summary of those reports and their totals |
| Telegram.KeyButton | src/telegram/telegram.service.ts:68-71 | a button keeps its label; its callback data is "node_" followed by its target |
| Telegram.ProcessNode | src/telegram/telegram.service.ts:56-92 | MESSAGE replies with its text or "Пустое сообщение"; only BUTTON carries a keyboard; only DELAY waits; PAYMENT replies with the payment text of its product and price; an unknown type is reported by name; every node gets an action |
| Telegram.PaymentReplyNamesProductAndPrice | src/telegram/telegram.service.ts:83-87 | the PAYMENT reply has no keyboard; after its label it carries the product name, then after the price label the price (`undefined` when missing) |
| Telegram.ButtonKeyboard | src/telegram/telegram.service.ts:64-75 | the BUTTON reply has one keyboard button per configured button, in order, with label and `node_` target |
| Telegram.DelayMillis | src/telegram/telegram.service.ts:77-81 | DELAY waits 1000 ms per configured second, and 1000 ms when none or 0 is set |
| Telegram.StartAction | src/telegram/telegram.service.ts:27-47 | an empty payload is an invalid link; a missing or non-ACTIVE funnel is unavailable; otherwise the first node is played, or nothing when there is none |
| Telegram.EmptyPayloadIgnoresFunnel | src/telegram/telegram.service.ts:27-30 | for an empty payload the answer does not depend on any funnel |
| Telegram.OnlyFirstNodeRendered | src/telegram/telegram.service.ts:44-47 | the answer depends on the first node only |
| Telegram.Start | src/telegram/telegram.service.ts:23-48 | the funnel named by the payload is looked up with exactly its nodes, oldest first; the answer is `StartAction` of that; a node played is one of the funnel's earliest |
| Telegram.AfterQuestion | src/telegram/telegram.service.ts:100-103 | none exactly when there is no `?`; otherwise the text after the first `?` |
| Telegram.AfterQuestionSkips | src/telegram/telegram.service.ts:100-103 | the query starts right after the first `?` |
| Telegram.BotLinkStartsFunnel | src/telegram/telegram.service.ts:100-103 | the start parameter of the bot link is the funnel id, so `/start` looks up the funnel the link was made for |
| Billing.PlanPrice | src/billing/billing.service.ts:9-12 | FREE costs 0 and PRO 499000 kopecks; no other plan name has a price (the object would also answer an inherited member such as `toString`, which `@IsEnum(Plan)` in src/billing/dto/subscribe.dto.ts keeps from reaching it) |
| Billing.PlanLimits | src/billing/billing.service.ts:53-69 | PRO is unlimited with its three features; every other plan gets 1 funnel, 100 leads a month and no features |
| Billing.UnknownPlanIsFree | src/billing/billing.service.ts:61-67 | an unknown plan gets FREE's limits |
| Billing.GetSubscription | src/billing/billing.service.ts:30-50 | an existing subscription is returned unchanged; a missing one is created as FREE/ACTIVE; the limits are its plan's |
| Billing.Slice8 | src/billing/billing.service.ts:105 | `slice(0, 8)`: the prefix of eight characters, or the whole string when it is shorter |
| Billing.OrderIdsOfInstantsDiffer | src/billing/billing.service.ts:105 | order ids made at different instants differ, whatever the UUIDs |
| Billing.CreatePayment | src/billing/billing.service.ts:103-124 | one PENDING payment with a fresh order id, the DTO's amount, description and funnel, and the demo confirmation URL |
| Billing.Subscribe | src/billing/billing.service.ts:72-100 | FREE is set at once with no expiry and no payment; a priceless plan is BadRequest with nothing written; otherwise a payment of the plan's price described as its subscription |
| Billing.PaidPlansArePriced | src/billing/billing.service.ts:83-86 | every plan other than FREE has a non-zero price |
| Billing.SubscriptionPaymentMentionsSubscription | src/billing/billing.service.ts:91 | a subscription payment's description contains "Подписка" |
| Billing.NextStatus | src/billing/billing.service.ts:199-213 | each of the four known events sets its own status |
| Billing.NextStatusKeepsIffUnknown | src/billing/billing.service.ts:199-213 | an event keeps every status exactly when it is not one of the four |
| Billing.NextStatusIdempotent | src/billing/billing.service.ts:199-213 | applying the same event twice is applying it once |
| Billing.OrderKey | src/billing/billing.service.ts:189-191 | the lookup by order id finds a payment with that order id, and nothing exactly when no payment has it |
| Billing.OrderKeyFinds | src/billing/billing.service.ts:189-191 | with unique order ids, a payment's own order id finds that payment |
| Billing.Settle | src/billing/billing.service.ts:215-221 | the payment takes the event's status and the method when one is given; no other field changes |
| Billing.SettleKeepsKeys | src/billing/billing.service.ts:215-221 | rewriting one payment's status and method keeps payments under their ids and order ids unique |
| Billing.ApplySettlement | src/billing/billing.service.ts:215-239 | the found payment settled; PRO/ACTIVE for 30 days from now when it ends SUCCEEDED as a subscription, else subscriptions untouched; the reply carries the new status; only billing tables change |
| Billing.HandleWebhook | src/billing/billing.service.ts:182-242 | the tables and reply are the webhook effect: nothing for a missing or unknown order id; otherwise that payment settled, and PRO/ACTIVE for 30 days when it succeeded as a subscription |
| Billing.WebhookTouchesOnePayment | src/billing/billing.service.ts:215-221 | the webhook changes at most the one payment with that order id, and only its status and method |
| Billing.WebhookIdempotent | src/billing/billing.service.ts:182-242 | a repeated delivery at the same instant leaves the tables as the first delivery did |
| Billing.AnyEventReactivatesSucceeded | src/billing/billing.service.ts:199-239 | any unknown event on a succeeded subscription payment renews PRO for 30 days from now |
| Billing.ConfirmPaymentDemo | src/billing/billing.service.ts:254-268 | NotFound unless the payment exists and is the user's, with nothing written; otherwise exactly the `payment.succeeded` webhook for its order with method "demo" |
| Billing.ConfirmSettlesPayment | src/billing/billing.service.ts:254-268 | a confirmed demo payment ends SUCCEEDED with method "demo" |
| Billing.FirstOfNewestFirst | src/billing/billing.service.ts:245-251 | the first rows of a newest-first list leave out only payments no newer than any taken, and none when fewer than fifty are taken |
| Billing.GetPayments | src/billing/billing.service.ts:245-251 | at most 50 of the user's payments, once each, newest first; every payment of the user left out is no newer than any listed one; all of them when fewer than 50 |
| Auth.FreshnessBoundary | src/auth/auth.service.ts:72-76 | login data exactly 86400 s old is accepted, one second older is expired, and data from the current second is never expired |
| Auth.Fields | src/auth/auth.service.ts:79-80 | the DTO's fields other than the hash never have the key "hash" |
| Auth.Entries | src/auth/auth.service.ts:79 | `Object.entries` of the DTO, in one fixed order of the fields that ends with the hash (the order is immaterial by `Auth.CheckStringOrderFree`) |
| Auth.WithoutHash | src/auth/auth.service.ts:80 | exactly the entries whose key is not "hash" are kept |
| Auth.WithoutHashCount | src/auth/auth.service.ts:80 | the filter keeps every non-hash entry as often as it occurs |
| Auth.InsertEntry | src/auth/auth.service.ts:81 | an entry inserted into a key-sorted list keeps it sorted and adds exactly that entry |
| Auth.SortEntries | src/auth/auth.service.ts:81 | the sort is key-ordered and a permutation |
| Auth.Lines | src/auth/auth.service.ts:82 | one `key=value` line per entry, in order |
| Auth.SortedUnique | src/auth/auth.service.ts:81 | two key-sorted permutations of entries with unique keys are equal |
| Auth.CheckStringOrderFree | src/auth/auth.service.ts:79-83 | the check string does not depend on the order of the fields |
| Auth.SortedFieldsFromInput | src/auth/auth.service.ts:79-82 | every signed entry is an input entry other than the hash |
| Auth.CheckStringLines | src/auth/auth.service.ts:79-83 | splitting the check string at newlines gives back the sorted lines, and it does not end with a newline |
| Auth.HashNotSigned | src/auth/auth.service.ts:79-83 | the check string does not depend on the hash it is checked against |
| Auth.ValidateTelegramData | src/auth/auth.service.ts:64-96 | a missing token fails first, then expired data; the data is accepted exactly when the token is set, the data is fresh, and the signature of the check string is the hash; every failure is Unauthorized |
| Auth.UserKey | src/auth/auth.service.ts:21-22 | the upsert target is the user with that Telegram id, and nothing exactly when there is none |
| Auth.ApplyProfile | src/auth/auth.service.ts:23-28 | the upsert's update writes each profile field the DTO carries and keeps id and Telegram id |
| Auth.UpsertUser | src/auth/auth.service.ts:21-36 | an existing user with the Telegram id is updated in place; otherwise a new user is created with it |
| Auth.TelegramLogin | src/auth/auth.service.ts:16-45 | the validation's error with nothing written, or the upserted user |
| Auth.LoginKeepsOneUserPerTelegramId | src/auth/auth.service.ts:21-36 | after a login, one user holds that Telegram id; an existing user adds no row, a new one adds exactly one |
| Auth.Refresh | src/auth/auth.service.ts:47-62 | Unauthorized "User not found" exactly when the user is missing, otherwise that user |
| Common.OrString | src/analytics/analytics.service.ts:87 | `a \|\| b` on an optional string: the value when it is a non-empty string, the default otherwise |
| Common.IntToStringRoundTrip | src/auth/auth.service.ts:22 | `String(n)` of an integer reads back as that integer |
| Common.IntToStringInjective | src/auth/auth.service.ts:22 | different Telegram ids give different `String(id)` keys |
| Common.StrLtTransitive | src/analytics/analytics.service.ts:122 | the date order used by the sort is transitive |
| Common.StrLtTotal | src/analytics/analytics.service.ts:122 | any two dates are ordered one way or the other, or are equal |
| Common.Lower | src/funnels/funnels.service.ts:62 | case folding keeps the length and folds each character |
| Common.SplitJoin | src/auth/auth.service.ts:83 | splitting a join of newline-free parts gives back the parts |

## Left out

- The production branch of `createPayment` (src/billing/billing.service.ts:126-178) is left out. It calls the payment provider over the network. Only the demo branch is modelled.
- The `metadata` column (idempotence key and demo flag) of a created payment is not modelled; nothing reads it.
- The payment column the source spells `oderId` is `orderId` in the model.
- `generateTokens` is left out: JWT signing is a foreign call. `telegramLogin` and `refresh` return the user only.
- HMAC-SHA-256 is the parameter `sign`, so the secret-key derivation from the bot token is part of it.
- `Date.now()`, `randomUUID()` and database-generated ids are parameters. The model requires the new ids to be fresh and the order id to be unused. A collision would be a database error, and that is not modelled.
- `toISOString().split('T')[0]` is the parameter `dayOf`, and dates are integer instants. Parsing the `from`/`to` query strings with `new Date` is not modelled: the bounds arrive as optional integers.
- `localeCompare` is modelled as code-unit order (`StrLt`). This is the same order for the ISO dates sorted by the per-day breakdown. It is also the same for the login field names, which differ in their first letters.
- `toFixed(2)` and the `%` suffix of conversions are not modelled. A conversion is the pair of counts (`Ratio`), or `NoneStarted` where the source prints "0.00%".
- Money and counters are unbounded integers. The source uses JavaScript numbers and 32-bit database integers.
- Telegram I/O is left out: `reply`, the `setTimeout` of a DELAY, `sendMessage`, `launch`, and the missing-token check in the constructor. The model stops at the action chosen (`Telegram.Action`).
- Nodes `findOne` is `Nodes.CheckNodeAccess` itself, so it has no member of its own.
- Funnels.CreateFromTemplate: the final `findUnique` with `include: { nodes: true }` has no order. The model returns the nodes in creation order.
- Analytics.GetUserAnalytics: the funnel `findMany` has no `orderBy`. The model lists the user's funnels in creation order, and its contract states no order.
- The `_count.nodes` of a listed funnel is the number of node rows of that funnel (`Funnels.NodeCount`).
- The node DTOs are `Nodes.CreateNodeDto` (src/nodes/dto/create-node.dto.ts:4-18) and `Nodes.UpdateNodeDto` (src/nodes/dto/update-node.dto.ts:3-16). Their `content` is a free-form object in the source; the model gives it the fields the services read (`Entities.NodeContent`).
- Validation of the request DTOs other than the funnel list query is taken as done. The models assume a whitelisted DTO whose absent fields are `None`. `Object.entries` lists only the fields that are present.
- Funnels.Remove: `remove` (src/funnels/funnels.service.ts:123-129) deletes only the funnel row. The database schema is not part of this model; the model assumes that deleting a funnel also deletes its nodes and sessions. Deleting the payments of a funnel is not modelled.
- The plan names `FREE` and `PRO` (`Entities.Plan`) and the `DRAFT` status of a new funnel come from enums and column defaults in the database schema, which is not part of this model. The model assumes them.
- The value sets of `Entities.FunnelStatus` (DRAFT, ACTIVE, ARCHIVED), `Entities.NodeType` (MESSAGE, BUTTON, DELAY, PAYMENT, CONDITION), `Entities.SessionStatus` (ACTIVE, COMPLETED, ABANDONED, PAID) and `Entities.PaymentStatus` are database enums, which the services only compare against; the model assumes these closed sets. Analytics.StatusPartition (active + completed + abandoned = started) holds only because every session status is one of the four. Telegram.ProcessNode's unknown-type reply is stated for CONDITION, the one type outside its switch; the source's `default` branch would name any other type the same way.
- FunnelQuery.Validate: `page` and `limit` arrive as integers (`FunnelQuery.RawQuery`), so the `@IsInt` rejection of a non-integer or non-numeric value (src/funnels/dto/funnel-query.dto.ts:8,14) is not modelled.
- Auth.Entries: the source's `Object.entries` follows the order of the request body's fields. The model fixes one order, with the hash last; `Auth.CheckStringOrderFree` shows the check string does not depend on it.
- Telegram.BotLinkStartsFunnel: this is proved only for bot names without a `?`. Telegram user names cannot contain one.
- The case-insensitive name search is done by the database. The model folds Latin and Cyrillic capitals only (`Common.LowerChar`); other scripts compare as they are.

## Findings

| source | as written | input that shows it | evidently intended | confidence | as-written member | corrected member |
|---|---|---|---|---|---|---|
| src/funnels/funnels.service.ts:143-147 | `this.templates[templateId]` also finds the members every object inherits, so `!template` lets them through. The funnel row is created with the inherited member's name. Reading `template.nodes.length` then throws, and the funnel stays behind. | `templateId = "toString"` with no name: the guard passes, a DRAFT funnel named "toString" is written, then a TypeError | only the table's own keys are templates; any other key is NotFound before anything is written | not executed | Funnels.CreateFromTemplateAsWritten, Funnels.InheritedKeyPassesGuard | Funnels.CreateFromTemplate |
