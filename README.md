# NodeRegistry in Dafny

A model of the NodeRegistry contract: an ERC-721 style registry of numbered
nodes. Each node has a URI, an entry and a holder, and each entry is unique
among live nodes.

- `mint` issues the id `lastId + 1`. The caller must attach exactly the
  configured platform fee, and the whole amount goes to the platform address.
- `burn` retires a node. The counter never goes back, so a burned id is never
  issued again.
- `updateNode` gives a node a new URI and entry and releases the old entry.
- `transferFrom` moves a node, but only after the contract owner has called
  `reveal`; before that every transfer reverts. `approve` and
  `setApprovalForAll` grant transfer rights and work at any time.
- `pause` blocks `mint` only.
- Two kinds of enumerable sets list the live ids: one global set and one set
  per holder. Both remove an id by swap and pop, and that order is
  observable: from `[1, 2, 3, 4, 5]`, burning 1 and then 2 leaves
  `[5, 4, 3]`.

The model's behaviour comes from the assertions in `test/NodeRegistry.js`:
revert reasons, event arguments, and exact enumeration orders. The Solidity
contract is not part of this model. Where the test does not pin a detail,
the model follows OpenZeppelin 3.x `ERC721` and `EnumerableSet`, whose
revert strings the test asserts:

- the order of the checks in `transferFrom` and `approve`;
- clearing the approval on a transfer;
- moving the id between holders' lists on a transfer: swap and pop out of
  the sender's list, then append to the recipient's list. A transfer to the
  current holder therefore moves the id to the end of that holder's list.

Files:

- `enumerable_set.dfy`, module `EnumerableSet`: `IdSet` is the array of ids
  plus the map from each id to its slot. `Add` appends. `Remove` is swap and
  pop. Lemmas cover distinctness, length and exactly-once enumeration.
- `node_registry.dfy`, module `NodeRegistry`, which has four parts:
  - The `Ledger` value: the counter, the records, the entry→id index, the
    enumerable sets and the approvals. Its `Valid()` invariant says all of
    them agree.
  - The transitions `Mint`, `Burn`, `Update`, `Transfer` and `Approve` as
    functions, with lemmas about what each keeps and changes.
  - The queries.
  - The revert conditions of each operation, as check functions that test
    in the contract's order.

  The `Registry` class is the deployed contract. It holds the ledger, the
  operator approvals, the `revealed`/`paused` flags, the platform address
  and fee, the native currency credited to each address, and the event log.
  Each contract operation is a method that changes these fields.
- `scenarios.dfy`, module `Scenarios`: the test's enumeration orders after
  each burn, derived from the swap-and-pop step.

How inputs and outputs are modelled:

- The caller of each operation is an authenticated address, passed as
  `caller`.
- The native currency sent with `mint` is the parameter `value`.
- A revert is an `Err`/`Fail` result that leaves every field unchanged.

## Model

| member | source | states |
|---|---|---|
| EnumerableSet.IdSet.Add | test/NodeRegistry.js:164-177 | adding a new id appends it to the enumeration; adding a present id changes nothing; the slot map stays consistent |
| EnumerableSet.IdSet.Remove | test/NodeRegistry.js:255-264 | removing a present id shortens the array by one, moves the last id into the freed slot and leaves every other slot alone; removing an absent id changes nothing |
| EnumerableSet.IdSet.At | test/NodeRegistry.js:164-169 | slot `i` holds a value exactly when `i` is below the length, and the value's recorded slot is `i` |
| EnumerableSet.EmptyIsValid | test/NodeRegistry.js:47-48 | the empty set is consistent, with no elements and length 0 |
| EnumerableSet.ValuesAreElements | test/NodeRegistry.js:171-177 | the array never holds an id twice and holds exactly the set's elements |
| EnumerableSet.DistinctCardinality | test/NodeRegistry.js:162 | a duplicate-free array is as long as the set of its values |
| EnumerableSet.LengthIsCardinality | test/NodeRegistry.js:162 | the enumeration length is the number of elements |
| EnumerableSet.EnumeratedOnce | test/NodeRegistry.js:164-177 | every element sits at exactly one index |
| EnumerableSet.RemoveSwapsOut | test/NodeRegistry.js:255-264 | removal is swap and pop on the array: the removed id's slot gets the last id and the last slot is dropped |
| NodeRegistry.Ledger.NodeCount | test/NodeRegistry.js:47-48 | `nodeCount`/`totalSupply` is the number of live nodes |
| NodeRegistry.Ledger.NodeByIndex | test/NodeRegistry.js:164-169 | `nodeByIndex(i)` reverts with "index out of bounds" exactly when `i` is at or beyond the live count, and otherwise returns the view of a live node |
| NodeRegistry.Ledger.NodeIds | test/NodeRegistry.js:171-177 | `nodeIds` lists every live id exactly once and nothing else |
| NodeRegistry.Ledger.OwnedNodeCount | test/NodeRegistry.js:181-183 | `ownedNodeCount(a)` is the number of live nodes `a` holds |
| NodeRegistry.Ledger.OwnedNodeByIndex | test/NodeRegistry.js:185-192 | `ownedNodeByIndex(a, i)` reverts exactly when `i` is at or beyond `a`'s count, and otherwise returns the view of a node `a` holds |
| NodeRegistry.Ledger.OwnedNodeIds | test/NodeRegistry.js:194-202 | `ownedNodeIds(a)` lists every live node of `a` exactly once and nothing else |
| NodeRegistry.Ledger.GetLastTokenId | test/NodeRegistry.js:47-48 | `getLastTokenId()` reads the counter; how the counter moves is stated by `MintIssuesFresh`, `BurnRetires` and `BurnedIdNeverReissued` |
| NodeRegistry.Ledger.NodeInfo | test/NodeRegistry.js:130-158 | `nodeInfo(id)`: the node's id, URI and entry, or the all-zero view; what it shows is stated by `NodeInfoShowsLive`, `MintResolves`, `BurnResolves` and `UpdateResolves` |
| NodeRegistry.Ledger.GetTokenId | test/NodeRegistry.js:134-158 | `getTokenId(entry)`: the live node holding the entry, or 0; stated by `GetTokenIdFinds`, `BurnResolves` and `UpdateReleases` |
| NodeRegistry.Ledger.Mint | test/NodeRegistry.js:58-60 | the registration transition; stated by `MintKeepsValid`, `MintIssuesFresh`, `MintResolves`, `MintAppends` and `MintKeepsOtherLists` |
| NodeRegistry.Ledger.Burn | test/NodeRegistry.js:210-212 | the retirement transition; stated by `BurnKeepsValid`, `BurnRetires`, `BurnResolves`, `BurnCounts`, `BurnEnumerations` and `BurnKeepsOtherLists` |
| NodeRegistry.Ledger.Update | test/NodeRegistry.js:306-310 | the update transition; stated by `UpdateKeepsValid`, `UpdateResolves`, `UpdateReleases`, `UpdateKeepsOthers` and `UpdateKeepsLists` |
| NodeRegistry.Ledger.Transfer | test/NodeRegistry.js:432 | the change of holder; stated by `TransferKeepsValid`, `TransferRetags`, `TransferEnumerations`, `TransferKeepsOtherLists` and `TransferToHolder` |
| NodeRegistry.Ledger.Approve | test/NodeRegistry.js:440 | the single-node approval; stated by `ApproveKeepsValid` and `ApproveEffects` |
| NodeRegistry.MintCheck | test/NodeRegistry.js:93-94 | the revert reason of `mint`, checking paused, then the fee, then the entry; when it admits a call is stated by `MintAdmits` |
| NodeRegistry.BurnCheck | test/NodeRegistry.js:206-214 | the revert reason of `burn`, checking that the id is live before checking the caller; stated by `BurnAdmits` |
| NodeRegistry.UpdateCheck | test/NodeRegistry.js:299-311 | the revert reason of `updateNode`, checking in order that the id is live, that the caller is the holder and that the entry is free; stated by `UpdateAdmits` |
| NodeRegistry.TransferCheck | test/NodeRegistry.js:418-419 | the revert reason of `transferFrom`, checking approval before the reveal latch; stated by `TransferAdmits` |
| NodeRegistry.ApproveCheck | test/NodeRegistry.js:439-448 | the revert reason of `approve`; stated by `ApproveAdmits` |
| NodeRegistry.GenesisIsValid | test/NodeRegistry.js:47-48 | the freshly deployed ledger, with counter 0 and no nodes, satisfies the invariant |
| NodeRegistry.OwnedIsHeldBy | test/NodeRegistry.js:181-202 | each holder's enumerable set holds exactly the live ids whose record names that holder |
| NodeRegistry.NodeInfoShowsLive | test/NodeRegistry.js:130-158 | `nodeInfo` returns the all-zero view exactly for ids that are not live; a live node shows its id, URI and entry, and its entry resolves back to it |
| NodeRegistry.GetTokenIdFinds | test/NodeRegistry.js:130-158 | `getTokenId(entry)` is 0 exactly when no live node has the entry; otherwise it names the live node that does |
| NodeRegistry.ListsMatchIndex | test/NodeRegistry.js:164-177 | `nodeIds()[i]` and `nodeByIndex(i)` agree at every index |
| NodeRegistry.OwnedListsMatchIndex | test/NodeRegistry.js:185-202 | `ownedNodeIds(a)[i]` and `ownedNodeByIndex(a, i)` agree at every index |
| NodeRegistry.MintKeepsValid | test/NodeRegistry.js:58-60 | registering a free entry keeps the record store, entry index, enumerations and approvals consistent |
| NodeRegistry.BurnKeepsValid | test/NodeRegistry.js:206-214 | retiring a live node keeps the ledger consistent |
| NodeRegistry.UpdateKeepsValid | test/NodeRegistry.js:304-310 | updating a live node to a free entry, or to its own entry, keeps the ledger consistent |
| NodeRegistry.TransferKeepsValid | test/NodeRegistry.js:431-441 | moving a live node to another holder keeps the ledger consistent |
| NodeRegistry.ApproveKeepsValid | test/NodeRegistry.js:439-450 | setting a live node's approved address keeps the ledger consistent |
| NodeRegistry.MintIssuesFresh | test/NodeRegistry.js:126-127 | registration issues `lastId + 1`, which exceeds every id issued before; it adds exactly that record, held by the caller, and every other node stays as it was |
| NodeRegistry.MintResolves | test/NodeRegistry.js:130-134 | the new node shows its URI and entry, and its entry resolves to it |
| NodeRegistry.MintAppends | test/NodeRegistry.js:164-177 | the new id is appended to the end of the global list and of the caller's list |
| NodeRegistry.MintKeepsOtherLists | test/NodeRegistry.js:383-388 | registration leaves every other holder's list as it was |
| NodeRegistry.BurnRetires | test/NodeRegistry.js:217-218 | retirement keeps the counter, removes exactly the node and clears its approval |
| NodeRegistry.BurnedIdNeverReissued | test/NodeRegistry.js:289-296 | after a burn, the next registration gets a larger id and the burned id stays dead |
| NodeRegistry.BurnKeepsOtherLists | test/NodeRegistry.js:268-273 | retirement leaves every other holder's list as it was |
| NodeRegistry.BurnResolves | test/NodeRegistry.js:221-231 | after retirement `nodeInfo` shows the all-zero view and the node's entry resolves to 0 |
| NodeRegistry.BurnCounts | test/NodeRegistry.js:217-218 | retirement lowers the live count by exactly one |
| NodeRegistry.BurnEnumerations | test/NodeRegistry.js:253-285 | retirement takes the id out of the global list and its holder's list by swap and pop |
| NodeRegistry.UpdateResolves | test/NodeRegistry.js:338-343 | after an update the node shows the new URI and entry, and the new entry resolves to it |
| NodeRegistry.UpdateReleases | test/NodeRegistry.js:342-350 | a replaced entry resolves to 0 afterwards |
| NodeRegistry.UpdateKeepsOthers | test/NodeRegistry.js:320-362 | an update keeps the counter, the set of live ids, the node's holder and every other node |
| NodeRegistry.UpdateKeepsLists | test/NodeRegistry.js:366-402 | an update leaves the global list and every holder's list as they were |
| NodeRegistry.TransferRetags | test/NodeRegistry.js:431-437 | a transfer changes only the holder of the node (uri and entry stay) and clears its approval |
| NodeRegistry.TransferEnumerations | test/NodeRegistry.js:431-432 | the transfer that line 432 performs, with its holder lists as in OpenZeppelin 3.x `_transfer` (the test reads no list after a transfer): the global list stays; the id is appended to the recipient's list and leaves the sender's list by swap and pop |
| NodeRegistry.TransferKeepsOtherLists | test/NodeRegistry.js:431-432 | the transfer that line 432 performs, with its holder lists as in OpenZeppelin 3.x `_transfer` (the test reads no list after a transfer): the list of every holder other than the sender and the recipient stays as it was |
| NodeRegistry.TransferToHolder | test/NodeRegistry.js:432 | a `transferFrom` call as on line 432, but with the current holder as recipient, which the test does not exercise; following OpenZeppelin 3.x `_transfer`, it goes through and moves the id to the end of that holder's list: it is swapped out and appended again |
| NodeRegistry.ApproveEffects | test/NodeRegistry.js:439-441 | approval sets the approved address of one node; the ledger is otherwise equal to the old one |
| NodeRegistry.EntriesUnique | test/NodeRegistry.js:299-307 | no two live nodes share an entry |
| NodeRegistry.IndexedOnce | test/NodeRegistry.js:171-202 | every live id is in the global list and in its holder's list, and in no other holder's list |
| NodeRegistry.MintAdmits | test/NodeRegistry.js:93-94 | registration succeeds exactly when the registry is not paused, the attached value equals the fee and no live node has the entry; while paused it reverts with "Pausable: paused" |
| NodeRegistry.BurnAdmits | test/NodeRegistry.js:206-214 | retirement succeeds exactly when the id is live and the caller is its holder or the contract owner |
| NodeRegistry.UpdateAdmits | test/NodeRegistry.js:299-311 | update succeeds exactly when the id is live, the caller holds it and no other live node has the new entry (the node's own entry is allowed) |
| NodeRegistry.TransferAdmits | test/NodeRegistry.js:416-432 | a transfer succeeds exactly when the collection is revealed, `from` holds the node, `to` is nonzero and the caller is the holder, the approved address or an operator of the holder; before the reveal every transfer reverts |
| NodeRegistry.ApproveAdmits | test/NodeRegistry.js:439-450 | approval succeeds exactly when the node is live, the approved address is not the holder, and the caller is the holder or one of its operators |
| NodeRegistry.Registry.constructor | test/NodeRegistry.js:23 | deployment starts with the empty, consistent ledger and the given platform address and fee, unrevealed and unpaused |
| NodeRegistry.Registry.Mint | test/NodeRegistry.js:58-119 | reverts as `MintCheck` says, with nothing changed; otherwise issues `lastId + 1` to the caller, credits the whole value to the platform address and logs Transfer, RegisteredFees (even with fee 0) and NodeRegistered |
| NodeRegistry.Registry.Burn | test/NodeRegistry.js:206-214 | reverts as `BurnCheck` says, with nothing changed; otherwise retires the node and logs NodeUnregistered |
| NodeRegistry.Registry.UpdateNode | test/NodeRegistry.js:299-311 | reverts as `UpdateCheck` says, with nothing changed; otherwise updates the node and logs NodeUpdated |
| NodeRegistry.Registry.TransferFrom | test/NodeRegistry.js:418-451 | reverts as `TransferCheck` says, with nothing changed; otherwise moves the node and logs Transfer |
| NodeRegistry.Registry.Approve | test/NodeRegistry.js:439-450 | reverts as `ApproveCheck` says, with nothing changed; otherwise sets the approved address and logs Approval |
| NodeRegistry.Registry.SetApprovalForAll | test/NodeRegistry.js:449 | refuses the caller as its own operator; any other operator is granted or revoked, exactly that one pair changes, and ApprovalForAll is logged |
| NodeRegistry.Registry.Reveal | test/NodeRegistry.js:423-427 | owner only; a second call reverts with "already revealed"; the owner's first call succeeds, sets the latch and logs Revealed(1) |
| NodeRegistry.Registry.IsRevealed | test/NodeRegistry.js:416-427 | `isRevealed()` is 1 exactly when the latch is set, and 0 otherwise |
| NodeRegistry.Registry.Pause | test/NodeRegistry.js:511-513 | owner only; reverts when already paused; the owner's call on an unpaused registry succeeds, sets the flag and logs Paused |
| NodeRegistry.Registry.Unpause | test/NodeRegistry.js:520-522 | owner only; reverts when not paused; the owner's call on a paused registry succeeds, clears the flag and logs Unpaused |
| NodeRegistry.Registry.GetPlatformFee | test/NodeRegistry.js:476-478 | `getPlatformFee()` returns the platform address and fee; the constructor and `SetPlatformFee` state its value |
| NodeRegistry.Registry.SetPlatformFee | test/NodeRegistry.js:482-493 | owner only; the zero address reverts with "invalid platform address"; the owner's call with any other address succeeds and `getPlatformFee` then returns the new address and fee and PlatformFeeChanged is logged |
| Scenarios.LiveOrderOfTest | test/NodeRegistry.js:255-264 | swap and pop takes `[1,2,3,4,5]` to `[5,4,3]` after removing 1 and 2, and `[5,4,3,6,7]` to `[5,4,3,7]` after removing 6 |
| Scenarios.OwnedOrderOfTest | test/NodeRegistry.js:268-285 | a holder's `[1,4]` becomes `[4]` after removing 1, and `[4,6]` becomes `[4]` after removing 6; `[2]` becomes empty after removing 2 |

## Left out

- Proxy deployment and upgrade, and the `version` setter of the upgraded implementation (test/NodeRegistry.js:538-564). These are upgrade tooling. The model's state is one value, so nothing corresponds to a storage-layout upgrade.
- Native-currency balances and gas. The fee is an abstract amount credited to the platform address in `credited`. A failed forward (a platform address that refuses payment) is not modelled.
- The ERC-20 payment path. The token is deployed in the test but never used.
- The per-record receipt address. The registry variant the test drives has none: `nodeInfo` returns id, URI and entry only.
- `Ownable` ownership transfer and renouncement. The contract owner is the constant `admin`.
- The ERC-721 queries beyond what the test uses: `balanceOf`, `ownerOf`, `tokenURI`, `getApproved` and `isApprovedForAll`. The ledger's `records`, `Approved` and `operators` hold the same facts. `safeTransferFrom` and its receiver hook are left out.
- Event encoding. Events are an appended log of datatype values.
- `paused()`. It is the `paused` field, read directly.
- In-place arrays. The enumerable sets are immutable `IdSet` values that each transition replaces. Swap and pop is modelled exactly, but aliasing of storage arrays is not.
- Integer widths. Ids, fees and values are unbounded naturals. A 256-bit counter overflow is out of reach in practice and is not modelled.
- Check order where the test does not pin it:
  - `mint` checks paused, then the fee, then the duplicated entry (the paused
    mint at test/NodeRegistry.js:515 attaches the right fee for a free entry);
  - `updateNode` checks the holder before the duplicated entry (the test
    never combines a caller who is not the holder with a taken entry);
  - `transferFrom` checks existence, approval, `from`, `to` and then the reveal latch.

  The test does pin that approval comes before the reveal check (test/NodeRegistry.js:418-419).
