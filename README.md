# Agro-food provenance ledger: a Dafny model

This project models the provenance core of a Django supply-chain application:

- **The mock blockchain service** (`blockchain/services.py`, class `BlockchainService`). It keeps an
  in-memory, append-only list of hash-chained block records, plus an off-chain map from a dossier's hash to
  the dossier.
  - Each block is sealed with SHA-256 over batch id, data hash, previous hash, signer and event type.
  - Each block is linked to the tail's hash, or to a 32-zero sentinel for the first block.
- **The batch explorer** (`view_batch_chain` in `blockchain/views.py`). It walks the genealogy of a batch
  backwards through the ledger:
  - the blocks of the batch;
  - the parents named in their `data_content` (`inputs[*].batch_id`, and a `harvest_origin` normalised to a
    `LOTE-` id);
  - for `ORDER-` batches without such a parent, the order-to-harvest link in the database.

  It then keeps one block per `block_hash`, sorts by `timestamp` and numbers the blocks from 1.
- **The line filter of the repair script** `fix_views.py`. It keeps the first line that starts with a
  target prefix and drops every later one together with the 4 lines after it.

Modules:

- `Strings`: `str.startswith`, `str.replace`, `str()` of an int, and the ordering of Python `str` values.
- `JsonValue`: stored payloads and Python truthiness.
- `Ledger`: the service, as a class whose methods change `chain` and `offChainStorage`.
- `Genealogy`: the traversal, as mutually recursive methods threading the shared `visited` set.
- `Explorer`: de-duplication, sorting, in-place numbering on an array, and the view.
- `FixViews`: the filter loop and its specification.

Library calls the model cannot see are parameters:

- `Ledger.Crypto`: SHA-256 and `json.dumps(sort_keys=True)`.
- `Genealogy.Env`: the order-to-harvest lookup, and `str()` of a float, list or dict harvest origin.

Nothing is assumed about these parameters.

### Behaviour of the code worth knowing

- `block_index` is `len(chain) + 1`, so the first block has index 1 (`Ledger.BlockchainService.SignAndSubmitBlock`).
- Appending a block always succeeds: the service checks nothing before it appends.
- Resolution raises on malformed block content, e.g. an `inputs` entry that is not a dict (`Genealogy.InputScan`). This aborts the
  view, except inside the database bridge. There, views.py:206-207 catch every exception of the bridged
  traversal.
- The service stores the dossier under `content`, while the resolver reads `data_content`. On a chain built
  only by the service, the resolver therefore finds no ledger link at all (`Genealogy.ServiceChainHasOnlyBridges`).
- views.py calls `json.loads` without importing `json`, so string content always becomes `{}` (`Genealogy.ContentOf`).

### What the traversal is proved to return

From a batch id the traversal can move to the parent ids its blocks name, up to and including the first
block that raises. When no block raises and none names a parent, it moves through the database bridge
(`Genealogy.Successors`). `Genealogy.Reachable` is the reflexive-transitive closure of these moves, with or
without the bridge.

`fetch_genealogy` returns blocks and moves `visited` from `visited` to `visitedOut`. The ghost set
`collected` holds the batch ids whose blocks it returned. Every newly visited id is reachable from the start.
On return (`Genealogy.Accounted`):

- `collected` lies within the ids it newly visited;
- the result holds each block of those batches exactly once (as multisets);
- every parent of a collected id has been visited;
- every id visited but not collected is reachable from the bridge target of a visited batch that took its
  bridge, and some block of those ids raises.

When the call raises instead, a batch with a raising block is reachable from the start through the ledger
alone, without crossing a bridge. When no visited batch raises, the page's batches are exactly the ids
reachable from the requested one (`Explorer.ViewBatchChain`, `Genealogy.ReachClosed`).

## Model

| member | source | states |
|---|---|---|
| `Ledger.SignerFor` | blockchain/services.py:33-39 | Producer, Transporter and Retailer get their fixed wallet. Every other role, Processor included, gets `0xUnknown`, and only those roles get it. |
| `Ledger.MintKeepsChainValid` | blockchain/services.py:42-66 | Appending the minted block keeps the chain valid. Each block links to its predecessor's hash (the first to the sentinel), indices run 1, 2, 3, …, and every block is sealed. |
| `Ledger.SameSealSameHash` | blockchain/services.py:47-48 | The block hash depends only on batch id, data hash, tail, signer and event type. The timestamp and the stored dossier do not enter it. |
| `Ledger.ValidChainPrefix` | blockchain/services.py:42-44 | Every prefix of a valid chain is valid, and its tail hash is the hash the next block links to. |
| `Ledger.BlockchainService.constructor` | blockchain/services.py:11-16 | A new service has an empty chain and empty off-chain storage, and the chain is valid. |
| `Ledger.BlockchainService.GenerateDossierHash` | blockchain/services.py:18-26 | Returns the SHA-256 of the key-sorted serialisation. The storage afterwards maps that hash to the payload, other keys are unchanged, and the chain is untouched. |
| `Ledger.BlockchainService.SignAndSubmitBlock` | blockchain/services.py:28-75 | The chain becomes the old chain plus exactly one block, and the storage is unchanged. The block links to the old tail's hash (the sentinel on an empty chain) and has index old length + 1. Its signer comes from the wallet table and its hash is the seal of the five fields. Its content is the stored dossier or `{}`. The receipt carries "Success", the block hash and the block. Chain validity is preserved. |
| `Ledger.BlockchainService.GetChain` | blockchain/services.py:77-78 | The chain handed out is always valid, and its first block has index 1 and the sentinel as previous hash. |
| `Strings.ReplaceAll` | blockchain/views.py:200 | `str.replace` leaves a string that does not contain the pattern unchanged. |
| `Strings.ReplaceLeading` | blockchain/views.py:200 | Replacing "ORDER-" in "ORDER-" + rest, where rest does not contain it, gives the replacement followed by rest. |
| `Strings.Decimal` | blockchain/views.py:204 | `str(n)` starts with a minus sign exactly when n is negative, and otherwise with a digit. |
| `Strings.NatDigitsValue` | blockchain/views.py:204 | Reading back the digits `str(n)` writes for a natural number n gives n. |
| `Strings.DecimalInjective` | blockchain/views.py:204 | Distinct integers have distinct `str()` forms. |
| `Strings.LexLeTotal` | blockchain/views.py:220 | Any two timestamps are comparable under Python's string order. |
| `Strings.LexLeTransitive` | blockchain/views.py:220 | Python's string order is transitive. |
| `Strings.LexLeAntisymmetric` | blockchain/views.py:220 | Two timestamps that are each at most the other are equal. |
| `Strings.LexLeReflexive` | blockchain/views.py:220 | Every timestamp is at most itself. |
| `Genealogy.BlocksOfMember` | blockchain/views.py:156 | `my_blocks` holds a block exactly when it is in the ledger and its batch id is the one asked for. |
| `Genealogy.ContentOf` | blockchain/views.py:165-170 | The content read is never a string. A truthy non-string `data_content` is used as is. A missing, falsy or string one becomes `{}`. |
| `Genealogy.PyStr` | blockchain/views.py:189-192 | Python's `str()`: a string is itself, an int its decimal form (with a leading minus sign exactly when negative), `None` is "None" and the booleans are "True" and "False". |
| `Genealogy.WellFormedInputsFollowed` | blockchain/views.py:173-179 | An `inputs` list of dicts with string batch ids never raises. The ids followed are exactly its truthy `batch_id`s. |
| `Genealogy.InputScan` | blockchain/views.py:175-179 | The loop raises exactly when some entry is not a dict or has a truthy `batch_id` that is not a string. The ids it follows are the truthy batch ids, in order, of the entries before the first such entry. |
| `Genealogy.InputsOf` | blockchain/views.py:173-179 | A missing, empty or non-list `inputs` names no parent and does not raise. A list is scanned entry by entry, and the block raises here exactly when the list has an entry that is not well formed. |
| `Genealogy.HarvestOriginOf` | blockchain/views.py:183-187 | A truthy root `harvest_origin` is used as is, and so is a falsy one when there is no `order` key. Otherwise the origin is read from the `order` dict, and the lookup raises when `order` is not a dict. |
| `Genealogy.OriginRef` | blockchain/views.py:183-192 | Empty and "N/A" origins give no parent. A string origin gives its `LOTE-` form, and a non-zero int n gives "LOTE-" + `str(n)`. Every parent id produced starts with "LOTE-". |
| `Genealogy.BlockScan` | blockchain/views.py:163-193 | Content that is not a dict raises before any parent is followed. Otherwise the block follows its `inputs` ids, then its origin's id. It raises exactly when the inputs, the `order` lookup or the origin raise, and a raising block has followed only ids from its `inputs`. |
| `Genealogy.LotId` | blockchain/views.py:192 | The normalised id always starts with "LOTE-". It is the origin itself when the origin already starts with "LOTE-", and otherwise "LOTE-" + origin. |
| `Genealogy.LotIdIdempotent` | blockchain/views.py:192 | Normalising twice is the same as normalising once. |
| `Genealogy.BridgeTarget` | blockchain/views.py:197-204 | The database bridge leads somewhere only from an "ORDER-" id, and always to a "LOTE-" id. |
| `Genealogy.BridgeTargetKey` | blockchain/views.py:200-204 | Two "ORDER-" batches whose orders have harvests bridge to the same lot exactly when the harvest keys are equal. |
| `Genealogy.OrderBridge` | blockchain/views.py:197-205 | "ORDER-<digits>" whose blocks name no parent has exactly one parent: "LOTE-<pk>" of the harvest the lookup gives for <digits>. |
| `Genealogy.NoBlocksNoRefs` | blockchain/views.py:156-163 | A batch id with no block in the ledger can only be bridged. |
| `Genealogy.NoContentNoRefs` | blockchain/views.py:165-193 | Blocks without `data_content` name no parent and do not raise. |
| `Genealogy.ServiceChainHasOnlyBridges` | blockchain/views.py:164-165 | On any chain the service builds, the only parent a batch can have is its database bridge. |
| `Genealogy.UniverseBounds` | blockchain/views.py:149-152 | A finite set of ids contains the start, every parent id written in the ledger and every bridge target. It bounds the recursion, which therefore terminates even on cyclic `inputs`. |
| `Genealogy.FetchGenealogy` | blockchain/views.py:145-209 | An id already visited returns `[]` and leaves `visited` as it was. Otherwise the id is added and the result starts with the batch's own blocks. Every newly visited id is reachable from the start. The result holds each block of the collected batches exactly once, and the collected batches have all their parents visited. Every id visited but not collected lies behind a visited batch's bridge. On an exception, a raising batch is reachable from the start through the ledger alone. |
| `Genealogy.FollowBlocks` | blockchain/views.py:162-193 | After the loop over `my_blocks`, every parent id the blocks name has been visited. `parents_found` is true exactly when they name one. Every id visited is reachable from the batch. A raise aborts with a raising batch ledger-reachable from it. |
| `Genealogy.FollowBlock` | blockchain/views.py:163-193 | One iteration over `my_blocks`. The parent ids gathered so far grow by this block's ids (inputs first, then the harvest origin), all of them visited, and the result stays accounted for. A block that raises aborts, with a raising batch ledger-reachable from the current one. |
| `Genealogy.FollowParents` | blockchain/views.py:175-179 | Each parent id in the list ends up visited, every id visited is reachable from the batch, and the blocks gathered stay accounted for. An exception leaves a raising batch ledger-reachable from the batch. |
| `Genealogy.FollowParent` | blockchain/views.py:179 | One recursive call on a ledger parent, folded into the caller's result. What it visits is reachable from the caller's batch, and so is a raise it propagates. |
| `Genealogy.FollowBridge` | blockchain/views.py:195-207 | Nothing changes unless the id starts with "ORDER-", its blocks named no parent and the order has a harvest. Otherwise the bridge target ends up visited and the earlier result is kept as a prefix. A swallowed exception leaves the result and the collected ids as they were, and a raising batch is ledger-reachable from the target. |
| `Genealogy.FollowHarvest` | blockchain/views.py:204-207 | The recursive call on the harvest batch. On success its blocks are appended; on an exception they are dropped and the ids it visited stay visited, all reachable through the bridge. |
| `Genealogy.Abandon` | blockchain/views.py:206-207 | After a swallowed exception the ids it visited stay visited without their blocks. They are reachable from the bridge target that led to them, and the result is still accounted for. |
| `Genealogy.ScanFollowed` | blockchain/views.py:163-179 | Once the earlier blocks of a batch raised nothing, every parent id a block names is a move of the traversal. |
| `Genealogy.SuccessorsAreParents` | blockchain/views.py:163-205 | When a batch's blocks raise nothing, its moves are exactly the parent ids the source follows, the bridge included. |
| `Genealogy.ReachClosed` | blockchain/views.py:149-152 | A set of ids that holds the start and the parents of each of its ids holds every id reachable from the start. |
| `Genealogy.NothingDroppedWithoutBridge` | blockchain/views.py:198-207 | When no visited batch took its bridge, no visited batch is left out: only the bridge's `except` turns an exception into a partial result. |
| `Genealogy.Absorb` | blockchain/views.py:179 | Two consecutive stretches of the traversal compose: their blocks and collected ids add up. |
| `Explorer.FirstHashes` | blockchain/views.py:217 | The dict's keys are distinct and are exactly the hashes of the raw chain. |
| `Explorer.LastIndexWithHash` | blockchain/views.py:217 | The value kept for a key is the last block with that hash. |
| `Explorer.UniqueByHash` | blockchain/views.py:217 | At most one block per hash, and every hash of the raw chain is represented. Each block comes from the raw chain and is the last raw block with its hash, and the result is no longer than the raw chain. |
| `Explorer.InsertByTime` | blockchain/views.py:220 | Inserting into a timestamp-sorted list keeps it sorted and adds exactly that block. |
| `Explorer.SortByTime` | blockchain/views.py:220 | The result is sorted by non-decreasing timestamp and is a permutation of the input. |
| `Explorer.AssignVisualIndex` | blockchain/views.py:223-224 | After the loop, the array is the input with `visual_index` set to 1..n in order. |
| `Explorer.NumberedKeeps` | blockchain/views.py:223-224 | Numbering gives positions 1..n and changes nothing else. Order, timestamps, hashes and batch ids are kept. |
| `Explorer.PermutationKeepsDistinctHashes` | blockchain/views.py:217-220 | Sorting cannot bring back a duplicate hash. |
| `Explorer.ViewProperties` | blockchain/views.py:214-224 | The page chain is sorted by time, has distinct hashes covering exactly those of the collected blocks, and carries visual indices 1..n. Every block belongs to a collected batch. |
| `Explorer.ViewBatchChain` | blockchain/views.py:136-229 | Every visited batch is reachable from the requested one. A server error needs a raising batch reachable through the ledger alone. Otherwise the page is for the requested batch, which is collected, and every collected batch has all its parents visited. Every visited batch left out lies behind a visited batch's bridge. When no visited batch raises, the collected batches are exactly those reachable from the requested one. The chain is the de-duplicated, time-sorted, numbered list of the collected batches' blocks. |
| `FixViews.RemoveDuplicateBlock` | fix_views.py:8-28 | The loop's output is the specified filter of all the lines. |
| `FixViews.StateInvariant` | fix_views.py:9-26 | `skip_count` stays within 0..4 and is positive only after a first match. `found_first` holds exactly when an earlier line started with the target. |
| `FixViews.FilteredPrefix` | fix_views.py:28 | `new_lines` only grows: an earlier value is a prefix of a later one. |
| `FixViews.OutputIsSubsequence` | fix_views.py:14-28 | The output is a subsequence of the input: kept lines unaltered, at strictly increasing positions. |
| `FixViews.OutputLength` | fix_views.py:15-28 | Output length is input length minus the lines removed, so it is at most the input length. |
| `FixViews.KeepsThroughFirstMatch` | fix_views.py:19-28 | Every line up to and including the first match is kept. |
| `FixViews.FirstMatchKept` | fix_views.py:19-28 | The first matching line and all lines before it open the output. |
| `FixViews.AtMostOneMatchKeepsAll` | fix_views.py:19-26 | With at most one matching line, `skip_count` stays 0 and every line is kept. |
| `FixViews.NoDuplicateNoChange` | fix_views.py:19-26 | A file with at most one line starting with the target comes out unchanged. |
| `FixViews.SkipRun` | fix_views.py:15-17 | While the counter runs, each iteration drops one line and lowers the counter by one. |
| `FixViews.DuplicateRemoved` | fix_views.py:20-24 | A later match that is not itself skipped is dropped with the 4 lines after it (fewer at end of file). Scanning then resumes normally. |
| `FixViews.SkipOrigin` | fix_views.py:15-24 | A running skip counter was set by a duplicate as many lines back as it has already counted down. |
| `FixViews.RemovedOnlyNearDuplicate` | fix_views.py:14-28 | A line is dropped only if it is a duplicate that is not being skipped, or one of the 4 lines after one. |
| `FixViews.SkippedLineStates` | fix_views.py:15-17 | Changing a line the counter skips changes no state of the loop. |
| `FixViews.SkippedLineIgnored` | fix_views.py:15-17 | Lines consumed by the skip counter are never compared with the target, and replacing them does not change the output. |

## Left out

- Printing (blockchain/services.py:68, blockchain/views.py:207, fix_views.py:22,33) and the file reading and
  writing of fix_views.py (lines 3-6, 30-31): I/O with no effect on the values modelled.
- `datetime.datetime.now().isoformat()` (blockchain/services.py:61) is the parameter `now`. Timestamps are
  their isoformat strings, compared as Python compares `str` values.
- SHA-256 and `json.dumps(sort_keys=True)` are uninterpreted function parameters, with no collision
  resistance. The two behave as functions of the payload as a value: a dict is a map, so key order cannot matter.
- The `MarketplaceOrder` query (blockchain/views.py:201-202) is the parameter `Env.orderHarvest`. A query
  that raises is modelled as "no harvest", which is what the bridge's `except` makes of it.
- Payloads are JSON values with string keys, and `json.dumps(sort_keys=True)` is total on them. The
  `TypeError` that blockchain/services.py:20 raises for an unserialisable value or for keys of mixed
  types is not modelled. In the source it would propagate before the storage write at line 24.
- `str()` of a float, list or dict harvest origin is the parameter `Env.pyRepr`. `None`, booleans, ints and
  strings are modelled exactly.
- A truthy non-string parent id is modelled as raising. In the source, a hashable one that an earlier
  swallowed bridge failure already added to `visited` would be skipped instead. `visited` is modelled as a
  set of strings.
- views.py imports the module-level instance `blockchain_service` from services.py, which does not define
  it. That instance is not part of this model: the view takes the ledger as a parameter.
- `visual_index` is written into the block dicts the ledger itself holds (aliasing). The model numbers a
  copy in an array and leaves the ledger unchanged.
- Python's recursion limit: a genealogy deeper than about 1000 nested calls makes the source raise
  `RecursionError`. The bridge swallows it; elsewhere the view fails. The model's recursion is unbounded.
- `Genealogy.FetchGenealogy`: which exception propagates and which one a bridge swallows depends on the
  depth-first order in which batches are first visited. The contract states the necessary conditions
  (a propagated exception comes from a batch reachable through the ledger alone; an id left out lies
  behind a visited batch's bridge), not the order-dependent outcome itself.
- `Explorer.ViewBatchChain`: the choice between the page and the server error is characterised by the
  same necessary conditions, not decided exactly, for the same reason.
- `Explorer.SortByTime`: it is stated as sorted and a permutation. The stability of Python's `sorted`
  (equal timestamps keep their order) is implemented but not proved.
- Django rendering, `request`, authentication, forms and routing: the page is the value `Page`.
- Dossier assembly (`generate_genesis_block`, blockchain/utils.py), the ORM schema, the debug and check
  scripts, fix_html.py and the data migration are outside the modelled core.
- Concurrency: the source is sequential and has no lock, and the model is sequential.
