# Anomaly detection over a social purchase stream — a Dafny model

The system watches a stream of events from a social shopping network.
Users befriend and unfriend each other, and users buy things. A purchase is
flagged as anomalous when its amount lies more than three standard
deviations above the mean of the last `T` purchases made within the buyer's
`D`-degree social network (friends, friends of friends, … up to `D` hops,
excluding the buyer). The parameters `T` and `D` are on the first line of a
historical log. The rest of that log seeds the friendship graph and the
purchase history before the stream starts.

The model covers the streaming engine of `src/process_data.py` (the deployed
program, called the `Deployed` variant here) and of `src/test.py` (an
earlier top-level script, the `Script` variant):

| module (file) | what it models |
|---|---|
| `Basics` (`basics.dfy`) | `Option`, `Result`, `Min` |
| `FriendGraph` (`friend_graph.dfy`) | the undirected friendship graph as an adjacency map, `add_edge`/`remove_edge`, and the `D`-hop neighbourhood query (`getDnetwork`) as breadth-first frontier expansion |
| `PurchaseLedger` (`purchase_ledger.dfy`) | purchase records, the selection of the neighbours' amounts and pandas' `tail(T)` (`getTpurchases`) |
| `Anomaly` (`anomaly.dfy`) | mean, variance (population and sample) and the 3σ rule (`analyzePurchase`) |
| `Events` (`events.dfy`) | raw events with possibly missing fields, their validation, the cleaning of the historical log (`clean_hist_data`) and the reading of `T` and `D` |
| `Detector` (`detector.dfy`) | a pure specification of one stream step and of a whole stream (`Step`, `Replay`), and the class `Engine` whose fields `adj` (the graph) and `ledger` (the purchase history) the seeding constructor and the stream methods update in place, as `main` updates the graph and `hist_data` |

Model choices:
- User ids are `int`. Amounts and all statistics are exact `real`s. A
  missing or NaN field is `None`.
- The rule `amount > mean + 3·sd` is stated without a square root as
  `dev > 0 ∧ dev² > 9·variance`, where `dev = amount − mean`.
  `Anomaly.ExceedsIsThreeSigma` proves that this is the same as the
  comparison `amount > mean + 3·sd` in `analyzePurchase`, for the
  non-negative square root `sd` of the variance.
- A flag carries the buyer's id, the amount, the mean and the variance. The
  reported standard deviation is the square root of that variance.
- The graph library raises an exception when asked to remove an edge that
  does not exist, and both programs catch and ignore it. `RemoveEdge` returns
  `None` in that case, and callers keep the graph unchanged.
- Some functions model source expressions directly and carry no contract of
  their own; the lemmas in the table below state their properties:
  - `FriendGraph.Reach` models `src/process_data.py:248-250`.
  - `PurchaseLedger.Amounts` and `Window` model `src/process_data.py:255-259`.
  - `Anomaly.Mean` and `Exceeds` model `src/process_data.py:265-272`.
  - `Events.ReadConfig` models `src/process_data.py:25-29`.
  - `Events.Parse` and `Clean` model `src/process_data.py:217-243`.
  - `Detector.Seeded` models the seeding of `src/process_data.py:38-57`: the
    friendship rows folded into an empty graph, then the purchase rows kept.
  - `Detector.Score` models the `getDnetwork` → `getTpurchases` →
    `analyzePurchase` chain of `src/process_data.py:109-116`.
  - `Detector.BuyStep` models the purchase branch of
    `src/process_data.py:93-120` and of `src/test.py:167-184`.
  - `Detector.Step` models one iteration of `src/process_data.py:69-120`, and
    `Detector.Replay` models the whole loop.
- `Detector.Engine.Valid` is the invariant that the graph is undirected
  (every friendship stored in both directions). Every `Engine` method
  requires and re-establishes it; `FriendGraph.NeighbourhoodInGraph` shows
  what it buys: every neighbour of a buyer is itself a node of the graph.
- `getDnetwork` and `getTpurchases` are textually the same in both files.
  The same Dafny functions model both copies.

Behaviours of the two programs worth knowing:
- Neither program rejects `befriend(a, a)`. The graph stores a self-loop.
  `getDnetwork` still removes the buyer from its own neighbourhood. In the
  deployed variant, a buyer whose only edge is a self-loop counts as having
  an edge, so the purchase is scored. Its window is empty, so it is never
  flagged (`Detector.IsolatedNeverFlagged`).
- Neither program checks the sign of `T` or `D`; both are any integers.
  - A negative `D` gives an empty neighbourhood, because a breadth-first
    search with a negative cutoff stops at the source.
  - `T = 0` gives an empty window.
  - A negative `T` follows pandas' `tail(-n)`, which keeps all but the first
    `n` amounts (`PurchaseLedger.Tail`).
- Seeding applies all historical friendship rows first, in order, and then
  keeps all historical purchase rows as the ledger.
  `Detector.SeedIsDeployedReplay` proves that this ends in the same state as
  streaming those rows through the deployed rules. The script's stream rules would drop
  purchases by users who are not yet in the graph, so the equivalence does
  not hold for the script.
- `src/process_data.py:269` uses the population standard deviation, while
  `src/test.py:52` uses the sample one. The script also treats purchases
  differently:
  - It drops purchases by users absent from the graph without recording them.
  - It scores users who have no friends.

  Both variants are modelled. `Detector.ScriptFlagImpliesDeployedFlag`
  proves that, for one event from the same state, a purchase the script
  flags is also flagged by the deployed program. This does not extend to a
  whole run: once the script drops a purchase, the two ledgers differ, and
  `Detector.ScriptFlagsWhatDeployedDoesNot` exhibits a three-event stream
  whose last purchase only the script flags.

## Model

| member | source | states |
|---|---|---|
| `FriendGraph.AddEdge` | src/process_data.py:71-78 | after `befriend(a, b)` both ids are nodes, the edge is present in both directions, no other edge changes, and symmetry is kept |
| `FriendGraph.AddEdgeIdempotent` | src/process_data.py:45-46 | befriending two users who are already friends leaves the graph unchanged |
| `FriendGraph.RemoveEdge` | src/process_data.py:80-91 | unfriending an absent edge is reported (`None`), not applied. Otherwise the edge disappears in both directions, every node stays in the graph, no other edge changes, and symmetry is kept |
| `FriendGraph.RemoveUndoesAdd` | src/process_data.py:47-53 | removing a just-added friendship between two known users restores the graph exactly |
| `FriendGraph.AddUndoesRemove` | src/test.py:123-131 | re-adding a removed friendship restores the graph exactly |
| `FriendGraph.Neighbourhood` | src/process_data.py:248-250 | the neighbourhood never contains the buyer, and it is empty for `D <= 0` |
| `FriendGraph.NeighbourhoodWithinHops` | src/process_data.py:249-250 | an id is in the neighbourhood iff it is not the buyer and a walk of at most `D` edges joins it to the buyer, i.e. its shortest-path distance is in 1..D |
| `FriendGraph.IsolatedHasNoNeighbourhood` | src/test.py:31-33 | a user absent from the graph, or whose only edge is a self-loop, has an empty neighbourhood at every depth |
| `FriendGraph.NeighbourhoodInGraph` | src/test.py:31-33 | in a symmetric graph every neighbour is a node of the graph |
| `FriendGraph.ChainNeighbourhood` | src/process_data.py:248-250 | after befriend(1,2) and befriend(2,3), the depth-2 neighbourhood of 1 is {2, 3} |
| `PurchaseLedger.Selected` | src/process_data.py:258 | the positions of the ledger records whose id is in the network: every such position, each once, in increasing order |
| `PurchaseLedger.AmountsAreSelected` | src/process_data.py:258 | the selected amounts are exactly the amounts at those positions, in ledger order |
| `PurchaseLedger.Tail` | src/test.py:41 | `tail(n)` returns a suffix of its input, with `min(n, len)` elements for `n >= 0` and all but the first `-n` elements for `n < 0` |
| `PurchaseLedger.WindowIsRecentSuffix` | src/process_data.py:255-259 | for `T >= 0` the window has `min(T, n)` amounts, where `n` is the number of matching records. The window is exactly the matching records of a suffix of the ledger, i.e. the most recent ones, oldest first |
| `PurchaseLedger.WindowFromSelectedIds` | src/test.py:38-42 | every window amount is the amount of a ledger record whose id is in the network |
| `PurchaseLedger.WindowIgnoresOthers` | src/test.py:41 | appending a record whose id is outside the network does not change the window |
| `PurchaseLedger.EmptyWindow` | src/process_data.py:258 | an empty network gives an empty window |
| `Anomaly.SquaredDeviation` | src/process_data.py:269 | the sum of squared deviations is never negative |
| `Anomaly.Variance` | src/process_data.py:269 | the variance, population or sample, is never negative |
| `Anomaly.Analyze` | src/process_data.py:265-273 | a window of fewer than two amounts never flags. A flag carries the purchase's id and amount and a non-negative variance, and its amount lies above the window mean |
| `Anomaly.AnalyzeIsThreeSigma` | src/process_data.py:265-273 | for the standard deviation `sd` of the window, a purchase is flagged iff the window holds at least two amounts and `amount > mean + 3·sd`; a flag reports the window's own mean and variance |
| `Anomaly.ExceedsIsThreeSigma` | src/process_data.py:267-272 | for any `sd >= 0` with `sd² = variance`, the squared rule holds iff `amount > mean + 3·sd` |
| `Anomaly.FlagMonotone` | src/process_data.py:272 | for a fixed window, a flagged amount stays flagged when it increases |
| `Anomaly.SampleVarianceLarger` | src/test.py:52 | the sample variance (ddof=1) is at least the population variance (ddof=0) |
| `Anomaly.SampleFlagImpliesPopulationFlag` | src/test.py:48-56 | a purchase flagged with the sample deviation is also flagged with the population deviation |
| `Anomaly.FlatWindowFlags` | src/process_data.py:265-273 | window [10, 10, 10] with amount 50 is flagged, with mean 10 and variance 0 |
| `Events.Validated` | src/process_data.py:226-238 | the row filter of the cleaning never adds rows |
| `Events.ValidatedConcat` | src/process_data.py:226-238 | the row filter of the cleaning commutes with concatenation, so the kept rows stay in their original order |
| `Events.ValidatedMembers` | src/test.py:97-108 | an event survives validation iff some row parses to it |
| `Events.CleanKeepsExactlyValidRows` | src/process_data.py:217-243 | the cleaned log holds exactly the valid befriend/unfriend/purchase rows after the first (parameter) line, and it is shorter than the raw log |
| `Detector.ApplyFriendship` | src/process_data.py:44-53 | applying one historical row keeps the graph symmetric |
| `Detector.PurchasesOf` | src/process_data.py:55-57 | dropping the friendship rows leaves at most one ledger record per row |
| `Detector.PurchasesOfMembers` | src/process_data.py:55-57 | after seeding, a purchase is in the ledger iff it is one of the historical purchase rows |
| `Detector.PurchasesOfConcat` | src/test.py:133-135 | the purchases of two consecutive stretches of rows are those of the first followed by those of the second, so the ledger keeps the historical order |
| `Detector.Befriendings` | src/test.py:122-131 | replaying friendship rows in order keeps the graph symmetric |
| `Detector.StepSkipsInvalid` | src/process_data.py:71-96 | a stream event that the historical cleaning would drop (unknown type, or a missing id1/id2 or id/amount) changes neither graph nor ledger and flags nothing |
| `Detector.StepGraph` | src/process_data.py:71-91 | on a valid stream event the graph changes exactly as it does during seeding |
| `Detector.ReplayGraph` | src/process_data.py:69-91 | in both variants, the graph after a stream is the old graph with the stream's valid friendship events applied in arrival order |
| `Detector.ReplayLedger` | src/process_data.py:93-120 | in the deployed variant, the ledger after a stream is the old ledger followed by every valid purchase, in arrival order |
| `Detector.StepLedgerGrows` | src/test.py:177-184 | one event keeps the old ledger as a prefix, and adds at most one record, only for a valid purchase |
| `Detector.ReplayLedgerGrows` | src/test.py:144-184 | in both variants, the old ledger is a prefix of the new one, which grows by at most the number of valid purchases |
| `Detector.SeedIsDeployedReplay` | src/process_data.py:44-57 | seeding from the historical rows leaves the same graph and ledger as streaming those rows through the deployed rules from an empty state |
| `Detector.OwnPurchaseNotInWindow` | src/process_data.py:109-120 | a purchase never counts towards its own score: its record is outside the buyer's neighbourhood, so appending it first would not change the score |
| `Detector.IsolatedNeverFlagged` | src/process_data.py:101-107 | in both variants, a purchase by a user absent from the graph, or with no friend other than themself, is never flagged |
| `Detector.ScriptFlagImpliesDeployedFlag` | src/test.py:175-180 | for one event from the same state, a purchase the script flags is also flagged by the deployed program |
| `Detector.ScriptFlagsWhatDeployedDoesNot` | src/test.py:175-184 | over a whole stream the implication fails: from graph 1-2 and ledger [(2,10),(2,10)] with `T = 100`, `D = 1`, the stream purchase(3,1000), befriend(1,3), purchase(1,50) is flagged once by the script and never by the deployed program, because the script dropped the first purchase |
| `Detector.Engine.Seed` | src/process_data.py:38-57 | seeding applies the friendship rows in order to an empty graph, ignoring absent-edge removals, then keeps the purchase rows in order as the ledger. The resulting graph is symmetric |
| `Detector.Engine.AddFriend` | src/process_data.py:76-78 | the graph becomes `AddEdge` of the old graph, and the ledger is unchanged |
| `Detector.Engine.RemoveFriend` | src/process_data.py:84-91 | reports whether the edge existed. The graph loses that edge if it existed and is otherwise unchanged. The ledger is unchanged |
| `Detector.Engine.HandlePurchase` | src/process_data.py:98-120 | the purchase is appended as the last ledger record and the graph is unchanged. It is flagged only when the buyer has an edge, by the population rule on the window taken from the ledger before the append |
| `Detector.Engine.HandleScriptPurchase` | src/test.py:172-184 | a buyer absent from the graph leaves the ledger unchanged and is not flagged. Otherwise the purchase is scored by the sample rule on the pre-append ledger and then appended, even at zero degree |
| `Detector.Engine.Ingest` | src/process_data.py:69-120 | one stream event changes the graph, ledger and flag exactly as the specification step `Step` does |
| `Detector.Engine.Run` | src/test.py:144-184 | the stream loop leaves the state `Replay` gives, and returns the flagged purchases in arrival order |
| `Detector.Detect` | src/process_data.py:15-62 | a whole run aborts iff the first historical line is missing or lacks `T` or `D`. Otherwise it returns the flags of the stream, processed from the state seeded by the cleaned historical log |

## Left out

- Reading the JSON logs and writing flagged purchases as JSON (`pd.read_json`, `flagPurchase`): I/O. The stream and the historical log are parameters, and the flags are returned as a sequence.
- The rounding of the reported mean and standard deviation to two decimals, the timestamp and the event type in a flagged record: presentation only. The square root itself is not computed.
- `check_versions` (interactive input and installed package versions), timing and progress printing (including the cleaning step's message about unknown event types and the script's message about absent edges), and the command-line file names: environment plumbing.
- `setDtypes`: the conversion of ids to 32-bit integers, of amounts to 32-bit floats, and of missing fields to 0. Ids are unbounded integers, amounts are exact reals, and the fields that `setDtypes` fills with 0 are never read afterwards.
- Floating-point rounding in the mean, the standard deviation and the comparison: statistics are exact reals.
- The conversion of `T` and `D` to integers with `int(...)`: the model reads them as already-integer optional fields. A missing or unreadable value is `None`.
- The exception types on a missing parameter: the deployed program raises `ExecError`, while the script lets an uncaught `KeyError` (a missing `T` or `D` column or first row) or `ValueError` (a NaN value) end the run. Both abort, and the model returns `Failure(MissingParameters)` for both.
- The graph library's internals: the graph is an adjacency map and the breadth-first search is a frontier expansion. Neighbourhood queries are only ever made for buyers who are in the graph, so the library's error for an absent source never arises. The model returns the empty set in that case.
