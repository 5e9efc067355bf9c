# Fraud-rule engine and transaction-feed updates of payflow-analytics

This project models two parts of the payflow-analytics dashboard in Dafny.

**The fraud-rule engine** (`src/lib/fraudDetectionRules.ts`, module
`FraudRules` in `fraud_rules.dfy`). It checks one payment transaction
against four rules:
- high amount: the amount is strictly above 1000.
- unusual location.
- rapid transactions: at least 5 entries of the same customer in the
  recent-transaction list have a timestamp less than 60 000 ms before the
  current one's (the current transaction and later entries included).
- suspicious pattern: at least two of the other three rules fired.

`detectFraud` runs the rules in this fixed order and collects the alerts
they raise. Each alert has:
- a deterministic id, `alert_<transaction id>_<rule>`.
- a severity that is fixed for its rule.
- the amount, customer and timestamp of the transaction.
- the status `investigating`.

**The live feed's list updates** (`src/components/TransactionFeed.tsx`,
module `TransactionFeed` in `transaction_feed.dfy`).
- Loading the stored demo transactions merges them into the current list.
  Incoming entries whose id is already listed are dropped, the rest go in
  front, and the list is sorted newest first.
- A transaction-created event inserts the new transaction, unless its id
  is already listed, and sorts the list newest first.

The feed component's list is modelled by the class `TransactionFeed.Feed`.
The updaters themselves are pure functions, as they are in the source.

`wrappers.dfy` holds the `Option` type. It stands for the source's `null`
results and its optional fields.

Modelling choices:
- Timestamps are integer milliseconds, already parsed from their ISO-8601
  text. Amounts are `real`.
- The location rule does not consult the customer's history: it rolls
  `Math.random() < 0.3` (`src/lib/fraudDetectionRules.ts:73`). The model
  passes that outcome in as the boolean `locationRoll`. The documented
  intent, a location the customer never used before, is the predicate
  `NovelLocation`. `EvaluateWithLocationHistory` states what the engine
  does when that predicate is supplied as the outcome.
- The rapid-transaction filter is modelled as written. The rule's design
  intent is to count only the customer's transactions in the 60 seconds
  before the current one, not the current one itself. The code keeps every entry of the
  same customer whose timestamp is less than 60 000 ms before the current
  one. That includes the current transaction if it is in the list, and
  any later entry, since a negative difference passes the test. The model
  follows the code; `WindowBoundaries` states these cases.
- The `description` and `rule` texts are formatted with `toFixed`. They are
  replaced by a `Detail` value that carries the numbers the texts report:
  - the amount and the 1000 threshold.
  - the matches plus one, the threshold 5 and the window.
  - the factor count and which three factors fired.
- The sort with comparator `b - a` is ECMAScript's stable `Array.prototype.sort`.
  It is modelled by a stable insertion sort, newest first. A new entry goes
  before older entries and before entries with an equal timestamp.

## Model

| member | source | states |
|---|---|---|
| FraudRules.CheckHighAmount | src/lib/fraudDetectionRules.ts:40-58 | an alert is raised iff the amount is strictly above 1000 (1000 itself raises none); it is a high-severity `high_amount` alert with id `alert_<id>_high_amount`, copying amount, customer and timestamp, status investigating, reporting the amount and the threshold |
| FraudRules.CheckUnusualLocation | src/lib/fraudDetectionRules.ts:69-88 | an alert is raised iff the location outcome is true, whatever the history; it is a medium-severity `unusual_location` alert describing the transaction |
| FraudRules.RecentSameCustomer | src/lib/fraudDetectionRules.ts:106-110 | the matches are exactly the window entries of the same customer whose timestamp is under 60 000 ms before the current one, and there are no more of them than window entries |
| FraudRules.RecentSameCustomerCounts | src/lib/fraudDetectionRules.ts:107-112 | each window entry that passes the filter is counted as many times as it occurs in the window; entries that fail it are not counted |
| FraudRules.CheckRapidTransactions | src/lib/fraudDetectionRules.ts:99-127 | an alert is raised iff the number of matches is at least 5; it is a medium-severity `rapid_transactions` alert reporting matches + 1, the threshold 5 and the 60 000 ms window |
| FraudRules.RapidAllInWindow | src/lib/fraudDetectionRules.ts:103-117 | when every window entry matches, the rule fires iff there are at least 5 of them and reports their number plus one (5 prior entries report 6; 4 report nothing) |
| FraudRules.WindowBoundaries | src/lib/fraudDetectionRules.ts:107-110 | a same-customer entry exactly 60 000 ms earlier is not a match and one 59 999 ms earlier is; the current transaction itself and any later entry are matches |
| FraudRules.RecentSameCustomerAppend | src/lib/fraudDetectionRules.ts:107-110 | the matches of a concatenated window are the matches of the first part followed by those of the second |
| FraudRules.RapidMonotone | src/lib/fraudDetectionRules.ts:107-112 | adding entries to the window never withdraws a rapid-transactions alert |
| FraudRules.CheckSuspiciousPattern | src/lib/fraudDetectionRules.ts:138-163 | an alert is raised iff at least two of the three outcomes are true; it is a high-severity `suspicious_pattern` alert reporting 2 or 3 factors (3 exactly when all fired) and which factors fired |
| FraudRules.AlertId | src/lib/fraudDetectionRules.ts:45 | an alert id starts with `alert_`, ends with its rule's suffix (`_high_amount`, `_location`, `_rapid`, `_pattern`, the templates at lines 45, 75, 114 and 150) and holds the transaction id in between |
| FraudRules.ParseAlertIdRoundTrip | src/lib/fraudDetectionRules.ts:45-150 | the transaction id and the rule can be recovered from any alert id `alert_<id>_high_amount`, `_location`, `_rapid` or `_pattern` |
| FraudRules.AlertIdInjective | src/lib/fraudDetectionRules.ts:45-150 | two alert ids are equal only when they come from the same transaction id and the same rule |
| FraudRules.AlertIdsStable | src/lib/fraudDetectionRules.ts:45-150 | two alerts have the same id iff they are for transactions with the same id and of the same rule, so re-evaluation regenerates the same ids |
| FraudRules.DetectFraud | src/lib/fraudDetectionRules.ts:171-200 | appending each raised alert in turn yields `Evaluate`'s result: ordered by rule, at most four alerts |
| FraudRules.HasKindAppend | src/lib/fraudDetectionRules.ts:183-196 | a kind occurs in a list built by appending iff it occurs in one of the parts, so no push removes an earlier alert |
| FraudRules.OrderedAtMostFour | src/lib/fraudDetectionRules.ts:176-199 | a list ordered by rule holds each kind at most once and at most four alerts |
| FraudRules.Evaluate | src/lib/fraudDetectionRules.ts:171-200 | the function form of `detectFraud`: the result lists high_amount, unusual_location, rapid_transactions, suspicious_pattern in that order, each at most once, at most four alerts, every one raised for the transaction by the rule of its kind |
| FraudRules.EvaluateKinds | src/lib/fraudDetectionRules.ts:179-197 | high_amount is present iff amount > 1000, unusual_location iff the location outcome, rapid_transactions iff at least 5 matches, each independently of the others; suspicious_pattern iff at least two of these three conditions hold |
| FraudRules.EvaluatePattern | src/lib/fraudDetectionRules.ts:187-197 | suspicious_pattern is present iff at least two of the three base alerts are present |
| FraudRules.EvaluateEmpty | src/lib/fraudDetectionRules.ts:176-199 | the result is empty iff the amount is at most 1000, the location outcome is false and there are fewer than 5 matches |
| FraudRules.EvaluateAlertsDescribeTransaction | src/lib/fraudDetectionRules.ts:44-159 | every alert has id `alert_<transaction id>_<rule>`, copies amount, customer and timestamp, is investigating, and has its rule's severity: high for high_amount and suspicious_pattern, medium otherwise, never low |
| FraudRules.EvaluateIdsDistinct | src/lib/fraudDetectionRules.ts:176-199 | the alert ids within one result are pairwise distinct |
| FraudRules.EvaluateEmptyWindow | src/lib/fraudDetectionRules.ts:171-199 | with an empty window no rapid alert is raised, and with a false location outcome the result is just the high-amount rule's alert, if any |
| FraudRules.EvaluateWithLocationHistory | src/lib/fraudDetectionRules.ts:60-88 | with the history-based outcome `NovelLocation` (the rule documented at lines 61-68), unusual_location is present iff the transaction has a location absent from the customer's history |
| TransactionFeed.InsertNewestFirst | src/components/TransactionFeed.tsx:139-141 | inserting into a newest-first list keeps it newest first and adds exactly that transaction |
| TransactionFeed.SortNewestFirst | src/components/TransactionFeed.tsx:102-104 | the result is newest first and a permutation of the input |
| TransactionFeed.SortNewestFirstSorted | src/components/TransactionFeed.tsx:102-104 | sorting a list that is already newest first leaves it unchanged |
| TransactionFeed.WithoutIds | src/components/TransactionFeed.tsx:98-99 | an incoming entry is kept iff its id is not among the existing ids; when all ids are existing, nothing is kept |
| TransactionFeed.WithoutIdsCounts | src/components/TransactionFeed.tsx:98-99 | each kept entry keeps its multiplicity; each entry with an existing id is dropped entirely |
| TransactionFeed.MergeStored | src/components/TransactionFeed.tsx:97-105 | the result is newest first; its length is the current length plus the number of incoming entries with new ids; every current transaction is kept with its multiplicity, an incoming one with an existing id is dropped, one with a new id is kept |
| TransactionFeed.LoadDemo | src/components/TransactionFeed.tsx:91-110 | with nothing stored, or stored data that fails to parse, the list is unchanged; otherwise it is exactly `MergeStored` of the current and the stored list (stored entries with new ids added, those with listed ids dropped), newest first, still holding every current transaction |
| TransactionFeed.MergeNothingNew | src/components/TransactionFeed.tsx:97-105 | when every incoming id is already listed, the merge only sorts, and leaves a newest-first list unchanged |
| TransactionFeed.MergeStoredIdempotent | src/components/TransactionFeed.tsx:97-119 | merging the same stored list a second time, as the window-focus reload does, changes nothing |
| TransactionFeed.InsertCreated | src/components/TransactionFeed.tsx:132-142 | a transaction whose id is already listed leaves the list unchanged; otherwise the result is newest first, a permutation of the new transaction followed by the old list, one longer |
| TransactionFeed.InsertCreatedIdempotent | src/components/TransactionFeed.tsx:132-136 | delivering the same created transaction twice has the effect of delivering it once |
| TransactionFeed.InsertCreatedIsMergeOfOne | src/components/TransactionFeed.tsx:97-142 | on a newest-first list, inserting a transaction equals merging a stored list holding just that transaction |
| TransactionFeed.Feed.constructor | src/components/TransactionFeed.tsx:23 | the feed starts with an empty transaction list |
| TransactionFeed.Feed.LoadDemoTransactions | src/components/TransactionFeed.tsx:91-110 | the list is replaced by the result of loading the stored transactions; no listed transaction is lost |
| TransactionFeed.Feed.HandleTransactionCreated | src/components/TransactionFeed.tsx:129-143 | the list is replaced by the result of the insert; the new id is then listed, and a newest-first list stays newest first |

## Left out

- The location rule's random draw (`src/lib/fraudDetectionRules.ts:73`) is a caller-supplied boolean. Randomness cannot be modelled deterministically.
- The exact `description` and `rule` strings are left out, because they depend on `toFixed` float formatting. Their numeric content is carried in `Detail`. The rapid rule's text says "More than 5" while its test is "at least 5"; the model follows the test.
- ISO-8601 timestamp parsing with `new Date(...)` is left out: timestamps are integers. So is the NaN an unparsable date gives. In the window filter a NaN difference is never under the window. In the sort a NaN comparison leaves the order implementation-defined.
- Amounts are exact reals, not IEEE doubles. NaN or infinite amounts are not modelled.
- No input validation is modelled, because the source has none: the engine accepts any transaction.
- `detectFraud`'s default arguments (an empty history and an empty window) are ordinary parameters. `EvaluateEmptyWindow` covers the empty-window case.
- Several parts of the feed are left out: fetching from `/api/transactions` and its demo fallback (`src/components/TransactionFeed.tsx:27-80`), the refresh interval, window event wiring, `localStorage` and `JSON.parse`, `formatTime` and all rendering. They are I/O, clock and UI code. The model receives the parsed stored list as an `Option`, with `None` for nothing stored or a parse failure.
- A stored value that parses to something other than an array of transactions is not modelled.
- Duplicate ids within the incoming stored list are not removed, because the source does not remove them. The model keeps them too.
- TransactionFeed.SortNewestFirst: stability is built into the definition and matches ECMAScript's stable sort, but no lemma states it separately.
- The other components, the payment-provider API routes and the helpers in `src/lib/stripe-utils.ts` are UI or foreign network I/O, and are not part of this model.
