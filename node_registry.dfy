/** The node registry: an ERC-721 style ledger of numbered nodes, each with a
    URI, a globally unique entry string and a holder. Ids come from a counter
    that is never decremented; a reverse index resolves entries to ids; two
    kinds of enumerable sets list all live ids and the ids of each holder.
    The contract owner configures the registration fee, reveals the
    collection (which enables transfers) and pauses registration.

    The caller of every operation is an authenticated address passed in as
    `caller`; the native currency sent with `Mint` is the parameter `value`. */
module NodeRegistry {
  import opened EnumerableSet

  type Address = nat
  const ZeroAddress: Address := 0

  type NodeId = nat

  /** A live node: its URI, its entry and its current holder. */
  datatype Record = Record(uri: string, entry: string, holder: Address)

  /** What `nodeInfo` and the by-index queries return; all zero for an id
      that was never issued or has been burned. */
  datatype NodeView = NodeView(tokenId: NodeId, tokenUri: string, nodeEntry: string)

  const EmptyView := NodeView(0, "", "")

  /** Revert reasons. */
  datatype Error =
    | WhenPaused                      // "Pausable: paused"
    | WhenNotPaused                   // "Pausable: not paused"
    | CallerNotContractOwner          // "Ownable: caller is not the owner"
    | IncorrectFee                    // "NodeRegistry: incorrect register fee"
    | DuplicatedNode                  // "NodeRegistry: duplicated node"
    | InvalidNodeId                   // "NodeRegistry: invalid nodeId"
    | NotNodeOwner                    // "NodeRegistry: caller is not node owner"
    | NotNodeOwnerNorContractOwner    // "NodeRegistry: caller is not node owner or contract owner"
    | NotRevealed                     // "NodeRegistry: node is not revealed"
    | AlreadyRevealed                 // "NodeRegistry: node is already revealed"
    | InvalidPlatformAddress          // "NodeRegistry: invalid platform address"
    | IndexOutOfBounds                // "EnumerableSet: index out of bounds"
    | NonexistentToken                // ERC-721 query about an id that is not live
    | NotOwnerNorApproved             // "ERC721: transfer caller is not owner nor approved"
    | TransferFromIncorrectOwner      // ERC-721: `from` is not the holder
    | TransferToZeroAddress           // ERC-721: `to` is the zero address
    | ApprovalToCurrentOwner          // ERC-721: approving the holder itself
    | ApproveCallerNotOwnerNorApprovedForAll // "ERC721: approve caller is not owner nor approved for all"
    | ApproveToCaller                 // ERC-721: setApprovalForAll with oneself as operator

  datatype Outcome = Done | Fail(error: Error)

  datatype Result<T> = Ok(value: T) | Err(error: Error)

  /** The event log, appended to by every successful state change. */
  datatype Event =
    | RegisteredFees(tokenId: NodeId, platform: Address, fee: nat)
    | NodeRegistered(tokenId: NodeId, uri: string, entry: string)
    | NodeUpdated(tokenId: NodeId, uri: string, entry: string)
    | NodeUnregistered(tokenId: NodeId)
    | Transfer(sender: Address, recipient: Address, tokenId: NodeId)
    | Approval(holder: Address, approved: Address, tokenId: NodeId)
    | ApprovalForAll(holder: Address, operator: Address, enabled: bool)
    | Revealed(state: nat)
    | Paused(account: Address)
    | Unpaused(account: Address)
    | PlatformFeeChanged(platform: Address, fee: nat)

  /** The native currency credited to `a` so far. */
  function CreditOf(credited: map<Address, nat>, a: Address): nat {
    if a in credited then credited[a] else 0
  }

  function OwnedIn(owned: map<Address, IdSet>, a: Address): IdSet {
    if a in owned then owned[a] else Empty
  }

  // --------------------------------------------------------------------
  // The ledger invariant, stated over the ledger's values

  /** Every live id was issued by the counter, so it lies in 1..lastId. */
  ghost predicate IdsIssued(records: map<NodeId, Record>, lastId: nat) {
    forall id | id in records :: 1 <= id <= lastId
  }

  /** The reverse index maps exactly the live entries to their ids. */
  ghost predicate EntriesIndexed(records: map<NodeId, Record>, entryIds: map<string, NodeId>) {
    && (forall id | id in records :: records[id].entry in entryIds && entryIds[records[id].entry] == id)
    && (forall e | e in entryIds :: entryIds[e] in records && records[entryIds[e]].entry == e)
  }

  /** Every holder's enumerable set is well formed. */
  ghost predicate SetsValid(ownedIds: map<Address, IdSet>) {
    forall a | a in ownedIds :: ownedIds[a].Valid()
  }

  /** A holder's set lists only live ids that holder holds. */
  ghost predicate ListedAreHeld(records: map<NodeId, Record>, ownedIds: map<Address, IdSet>) {
    forall a, id {:trigger id in ownedIds[a].positions} | a in ownedIds && id in ownedIds[a].positions ::
      id in records && records[id].holder == a
  }

  /** Every live id is listed in its holder's set. */
  ghost predicate HeldAreListed(records: map<NodeId, Record>, ownedIds: map<Address, IdSet>) {
    forall id | id in records :: records[id].holder in ownedIds && id in ownedIds[records[id].holder].positions
  }

  /** Each holder's set lists exactly the live ids that holder holds. */
  ghost predicate HoldingsIndexed(records: map<NodeId, Record>, ownedIds: map<Address, IdSet>) {
    SetsValid(ownedIds) && ListedAreHeld(records, ownedIds) && HeldAreListed(records, ownedIds)
  }

  /** Only live nodes have an approved address, and it is never zero. */
  ghost predicate ApprovalsOfLive(records: map<NodeId, Record>, approvals: map<NodeId, Address>) {
    forall id | id in approvals :: id in records && approvals[id] != ZeroAddress
  }

  lemma OwnedValid(ownedIds: map<Address, IdSet>, a: Address)
    requires SetsValid(ownedIds)
    ensures OwnedIn(ownedIds, a).Valid()
  {
    EmptyIsValid();
  }

  // Each change to the ledger is proved to keep each part of the invariant
  // by its own lemma. The new values are parameters, tied to the old ones by
  // equations, and a holder's changed set is described only by its contract.
  // "Insert" adds a record under a fresh id, "Delete" removes one, "Retag"
  // replaces the record of a live id.

  lemma InsertKeepsLive(allIds: IdSet, records: map<NodeId, Record>, id: NodeId, rec: Record,
                        allIds': IdSet, records': map<NodeId, Record>)
    requires allIds.Elements() == records.Keys
    requires allIds'.Elements() == allIds.Elements() + {id} && records' == records[id := rec]
    ensures allIds'.Elements() == records'.Keys
  {
  }

  lemma DeleteKeepsLive(allIds: IdSet, records: map<NodeId, Record>, id: NodeId,
                        allIds': IdSet, records': map<NodeId, Record>)
    requires allIds.Elements() == records.Keys
    requires allIds'.Elements() == allIds.Elements() - {id} && records' == records - {id}
    ensures allIds'.Elements() == records'.Keys
  {
  }

  lemma RetagKeepsKeys(records: map<NodeId, Record>, id: NodeId, rec: Record, records': map<NodeId, Record>)
    requires id in records && records' == records[id := rec]
    ensures records'.Keys == records.Keys
  {
  }

  lemma InsertKeepsIssued(records: map<NodeId, Record>, lastId: nat, rec: Record, records': map<NodeId, Record>)
    requires IdsIssued(records, lastId)
    requires records' == records[lastId + 1 := rec]
    ensures IdsIssued(records', lastId + 1)
  {
  }

  lemma DeleteKeepsIssued(records: map<NodeId, Record>, lastId: nat, id: NodeId, records': map<NodeId, Record>)
    requires IdsIssued(records, lastId)
    requires records' == records - {id}
    ensures IdsIssued(records', lastId)
  {
  }

  lemma RetagKeepsIssued(records: map<NodeId, Record>, lastId: nat, id: NodeId, rec: Record,
                         records': map<NodeId, Record>)
    requires IdsIssued(records, lastId)
    requires id in records && records' == records[id := rec]
    ensures IdsIssued(records', lastId)
  {
  }

  lemma InsertKeepsEntries(records: map<NodeId, Record>, entryIds: map<string, NodeId>, id: NodeId, rec: Record,
                           records': map<NodeId, Record>, entryIds': map<string, NodeId>)
    requires EntriesIndexed(records, entryIds)
    requires id !in records && rec.entry !in entryIds
    requires records' == records[id := rec] && entryIds' == entryIds[rec.entry := id]
    ensures EntriesIndexed(records', entryIds')
  {
  }

  lemma DeleteKeepsEntries(records: map<NodeId, Record>, entryIds: map<string, NodeId>, id: NodeId,
                           records': map<NodeId, Record>, entryIds': map<string, NodeId>)
    requires EntriesIndexed(records, entryIds)
    requires id in records
    requires records' == records - {id} && entryIds' == entryIds - {records[id].entry}
    ensures EntriesIndexed(records', entryIds')
  {
  }

  lemma UpdateKeepsEntries(records: map<NodeId, Record>, entryIds: map<string, NodeId>, id: NodeId, rec: Record,
                           records': map<NodeId, Record>, entryIds': map<string, NodeId>)
    requires EntriesIndexed(records, entryIds)
    requires id in records
    requires rec.entry !in entryIds || entryIds[rec.entry] == id
    requires records' == records[id := rec] && entryIds' == (entryIds - {records[id].entry})[rec.entry := id]
    ensures EntriesIndexed(records', entryIds')
  {
  }

  lemma RetagKeepsEntries(records: map<NodeId, Record>, entryIds: map<string, NodeId>, id: NodeId, rec: Record,
                          records': map<NodeId, Record>)
    requires EntriesIndexed(records, entryIds)
    requires id in records && rec.entry == records[id].entry
    requires records' == records[id := rec]
    ensures EntriesIndexed(records', entryIds)
  {
  }

  lemma ReplaceKeepsSets(ownedIds: map<Address, IdSet>, h: Address, t: IdSet, ownedIds': map<Address, IdSet>)
    requires SetsValid(ownedIds) && t.Valid()
    requires ownedIds' == ownedIds[h := t]
    ensures SetsValid(ownedIds')
  {
  }

  lemma InsertKeepsListed(records: map<NodeId, Record>, ownedIds: map<Address, IdSet>, id: NodeId, rec: Record,
                          added: IdSet, records': map<NodeId, Record>, ownedIds': map<Address, IdSet>)
    requires ListedAreHeld(records, ownedIds)
    requires id !in records
    requires added.Elements() == OwnedIn(ownedIds, rec.holder).Elements() + {id}
    requires records' == records[id := rec] && ownedIds' == ownedIds[rec.holder := added]
    ensures ListedAreHeld(records', ownedIds')
  {
    forall a, x | a in ownedIds' && x in ownedIds'[a].positions
      ensures x in records' && records'[x].holder == a
    {
      if a == rec.holder && x != id {
        assert x in OwnedIn(ownedIds, a).positions;
      }
    }
  }

  lemma InsertKeepsHeld(records: map<NodeId, Record>, ownedIds: map<Address, IdSet>, id: NodeId, rec: Record,
                        added: IdSet, records': map<NodeId, Record>, ownedIds': map<Address, IdSet>)
    requires HeldAreListed(records, ownedIds)
    requires added.Elements() == OwnedIn(ownedIds, rec.holder).Elements() + {id}
    requires records' == records[id := rec] && ownedIds' == ownedIds[rec.holder := added]
    ensures HeldAreListed(records', ownedIds')
  {
    forall x | x in records'
      ensures records'[x].holder in ownedIds' && x in ownedIds'[records'[x].holder].positions
    {
      if x != id && records[x].holder == rec.holder {
        assert x in OwnedIn(ownedIds, rec.holder).Elements();
      }
    }
  }

  lemma DeleteKeepsListed(records: map<NodeId, Record>, ownedIds: map<Address, IdSet>, id: NodeId,
                          removed: IdSet, records': map<NodeId, Record>, ownedIds': map<Address, IdSet>)
    requires ListedAreHeld(records, ownedIds)
    requires id in records
    requires removed.Elements() == OwnedIn(ownedIds, records[id].holder).Elements() - {id}
    requires records' == records - {id} && ownedIds' == ownedIds[records[id].holder := removed]
    ensures ListedAreHeld(records', ownedIds')
  {
    forall a, x | a in ownedIds' && x in ownedIds'[a].positions
      ensures x in records' && records'[x].holder == a
    {
      if a == records[id].holder {
        assert x in OwnedIn(ownedIds, a).positions;
      }
    }
  }

  lemma DeleteKeepsHeld(records: map<NodeId, Record>, ownedIds: map<Address, IdSet>, id: NodeId,
                        removed: IdSet, records': map<NodeId, Record>, ownedIds': map<Address, IdSet>)
    requires HeldAreListed(records, ownedIds) && ListedAreHeld(records, ownedIds)
    requires id in records
    requires removed.Elements() == OwnedIn(ownedIds, records[id].holder).Elements() - {id}
    requires records' == records - {id} && ownedIds' == ownedIds[records[id].holder := removed]
    ensures HeldAreListed(records', ownedIds')
  {
    forall x | x in records'
      ensures records'[x].holder in ownedIds' && x in ownedIds'[records'[x].holder].positions
    {
      if records[x].holder == records[id].holder {
        assert x in OwnedIn(ownedIds, records[id].holder).Elements();
      }
    }
  }

  lemma UpdateKeepsHoldings(records: map<NodeId, Record>, ownedIds: map<Address, IdSet>, id: NodeId, rec: Record,
                            records': map<NodeId, Record>)
    requires HoldingsIndexed(records, ownedIds)
    requires id in records && rec.holder == records[id].holder
    requires records' == records[id := rec]
    ensures HoldingsIndexed(records', ownedIds)
  {
  }

  lemma InsertKeepsApprovals(records: map<NodeId, Record>, approvals: map<NodeId, Address>, id: NodeId, rec: Record,
                             records': map<NodeId, Record>)
    requires ApprovalsOfLive(records, approvals)
    requires records' == records[id := rec]
    ensures ApprovalsOfLive(records', approvals)
  {
  }

  lemma DeleteKeepsApprovals(records: map<NodeId, Record>, approvals: map<NodeId, Address>, id: NodeId,
                             records': map<NodeId, Record>, approvals': map<NodeId, Address>)
    requires ApprovalsOfLive(records, approvals)
    requires records' == records - {id} && approvals' == approvals - {id}
    ensures ApprovalsOfLive(records', approvals')
  {
  }

  lemma RetagKeepsApprovals(records: map<NodeId, Record>, approvals: map<NodeId, Address>, id: NodeId, rec: Record,
                            records': map<NodeId, Record>, approvals': map<NodeId, Address>)
    requires ApprovalsOfLive(records, approvals)
    requires id in records && records' == records[id := rec] && approvals' == approvals - {id}
    ensures ApprovalsOfLive(records', approvals')
  {
  }

  lemma ApproveKeepsApprovals(records: map<NodeId, Record>, approvals: map<NodeId, Address>, id: NodeId,
                              to: Address, approvals': map<NodeId, Address>)
    requires ApprovalsOfLive(records, approvals)
    requires id in records
    requires approvals' == if to == ZeroAddress then approvals - {id} else approvals[id := to]
    ensures ApprovalsOfLive(records, approvals')
  {
  }

  // --------------------------------------------------------------------
  // The token ledger: counter, records, reverse index, enumerations and
  // single-token approvals

  datatype Ledger = Ledger(lastId: nat, records: map<NodeId, Record>, entryIds: map<string, NodeId>,
                           allIds: IdSet, ownedIds: map<Address, IdSet>, approvals: map<NodeId, Address>)
  {
    /** The record store, the reverse index, the live set, the holder sets and
        the single-token approvals agree with each other. */
    ghost predicate Valid() {
      var valid :=
        && allIds.Valid()
        && allIds.Elements() == records.Keys
        && IdsIssued(records, lastId)
        && EntriesIndexed(records, entryIds)
        && HoldingsIndexed(records, ownedIds)
        && ApprovalsOfLive(records, approvals);
      valid
    }

    /** The enumerable set of the ids `a` holds. */
    function Owned(a: Address): IdSet {
      OwnedIn(ownedIds, a)
    }

    ghost function HeldBy(a: Address): set<NodeId> {
      set id | id in records && records[id].holder == a
    }

    /** `getApproved(id)`: the approved address of a node, or zero. */
    function Approved(id: NodeId): Address {
      if id in approvals then approvals[id] else ZeroAddress
    }

    // The transitions. Each one is described by the lemmas after the
    // datatype: what it keeps (`…KeepsValid`) and what it changes.

    /** Registration: the next counter value becomes the id of a new node
        held by `holder`, appended to the global and the holder's
        enumeration. */
    function Mint(holder: Address, uri: string, entry: string): Ledger {
      var id := lastId + 1;
      Ledger(id, records[id := Record(uri, entry, holder)], entryIds[entry := id], allIds.Add(id),
             ownedIds[holder := Owned(holder).Add(id)], approvals)
    }

    /** Retirement: the node, its entry and its approval disappear and the id
        leaves both enumerations by swap and pop. The counter stays. */
    function Burn(id: NodeId): Ledger
      requires allIds.Valid() && SetsValid(ownedIds) && id in records
    {
      var holder := records[id].holder;
      OwnedValid(ownedIds, holder);
      Ledger(lastId, records - {id}, entryIds - {records[id].entry}, allIds.Remove(id),
             ownedIds[holder := Owned(holder).Remove(id)], approvals - {id})
    }

    /** A new URI and entry for a live node; the old entry is released. */
    function Update(id: NodeId, uri: string, entry: string): Ledger
      requires id in records
    {
      this.(records := records[id := Record(uri, entry, records[id].holder)],
            entryIds := (entryIds - {records[id].entry})[entry := id])
    }

    /** A change of holder: the id leaves the old holder's enumeration by swap
        and pop, is appended to the new holder's, and loses its approval. */
    function Transfer(id: NodeId, to: Address): Ledger
      requires SetsValid(ownedIds) && id in records
    {
      var from := records[id].holder;
      OwnedValid(ownedIds, from);
      var vacated := ownedIds[from := Owned(from).Remove(id)];
      Ledger(lastId, records[id := records[id].(holder := to)], entryIds, allIds,
             vacated[to := OwnedIn(vacated, to).Add(id)], approvals - {id})
    }

    /** Sets the approved address of a node; approving zero clears it. */
    function Approve(id: NodeId, to: Address): Ledger {
      this.(approvals := if to == ZeroAddress then approvals - {id} else approvals[id := to])
    }

    // ------------------------------------------------------------------
    // Queries

    /** `getLastTokenId()`: the last id issued. */
    function GetLastTokenId(): nat {
      lastId
    }

    /** `nodeInfo(id)`: the node's view, or the all-zero view when `id` is
        not live (see `NodeInfoShowsLive`). */
    function NodeInfo(id: NodeId): NodeView {
      if id in records then NodeView(id, records[id].uri, records[id].entry) else EmptyView
    }

    /** `getTokenId(entry)`: the live node holding `entry`, or 0 (see
        `GetTokenIdFinds`). */
    function GetTokenId(entry: string): NodeId {
      if entry in entryIds then entryIds[entry] else 0
    }

    /** `nodeCount()` and `totalSupply()`: the number of live nodes. */
    function NodeCount(): (n: nat)
      requires Valid()
      ensures n == |records|
    {
      LengthIsCardinality(allIds);
      allIds.Length()
    }

    /** `nodeByIndex(i)`. */
    function NodeByIndex(i: nat): (r: Result<NodeView>)
      requires Valid()
      ensures r.Err? <==> i >= |records|
      ensures r.Err? ==> r.error == IndexOutOfBounds
      ensures r.Ok? ==> r.value.tokenId in records && r.value == NodeInfo(r.value.tokenId)
    {
      LengthIsCardinality(allIds);
      match allIds.At(i)
      case Some(id) => Ok(NodeInfo(id))
      case None => Err(IndexOutOfBounds)
    }

    /** `nodeIds()`: every live id exactly once, in enumeration order. */
    function NodeIds(): (ids: seq<NodeId>)
      requires Valid()
      ensures |ids| == |records|
      ensures Distinct(ids)
      ensures forall id :: id in ids <==> id in records
    {
      ValuesAreElements(allIds);
      LengthIsCardinality(allIds);
      allIds.values
    }

    /** `ownedNodeCount(a)`: the number of live nodes `a` holds. */
    function OwnedNodeCount(a: Address): (n: nat)
      requires Valid()
      ensures n == |HeldBy(a)|
    {
      OwnedIsHeldBy(this, a);
      LengthIsCardinality(Owned(a));
      Owned(a).Length()
    }

    /** `ownedNodeByIndex(a, i)`. */
    function OwnedNodeByIndex(a: Address, i: nat): (r: Result<NodeView>)
      requires Valid()
      ensures r.Err? <==> i >= |HeldBy(a)|
      ensures r.Err? ==> r.error == IndexOutOfBounds
      ensures r.Ok? ==> r.value.tokenId in HeldBy(a) && r.value == NodeInfo(r.value.tokenId)
    {
      OwnedIsHeldBy(this, a);
      LengthIsCardinality(Owned(a));
      match Owned(a).At(i)
      case Some(id) => Ok(NodeInfo(id))
      case None => Err(IndexOutOfBounds)
    }

    /** `ownedNodeIds(a)`: every live id `a` holds exactly once. */
    function OwnedNodeIds(a: Address): (ids: seq<NodeId>)
      requires Valid()
      ensures |ids| == |HeldBy(a)|
      ensures Distinct(ids)
      ensures forall id :: id in ids <==> id in HeldBy(a)
    {
      OwnedIsHeldBy(this, a);
      ValuesAreElements(Owned(a));
      LengthIsCardinality(Owned(a));
      Owned(a).values
    }
  }

  /** The ledger of a freshly deployed registry. */
  const Genesis := Ledger(0, map[], map[], Empty, map[], map[])

  lemma GenesisIsValid()
    ensures Genesis.Valid()
  {
    EmptyIsValid();
  }

  /** Each holder's enumerable set holds exactly the ids the holder holds. */
  lemma OwnedIsHeldBy(l: Ledger, a: Address)
    requires l.Valid()
    ensures l.Owned(a).Valid()
    ensures l.Owned(a).Elements() == l.HeldBy(a)
  {
    OwnedValid(l.ownedIds, a);
  }

  /** `nodeInfo` shows the all-zero view exactly for ids that are not live;
      a live node's view carries its id, URI and entry, and that entry
      resolves back to the id. */
  lemma NodeInfoShowsLive(l: Ledger, id: NodeId)
    requires l.Valid()
    ensures l.NodeInfo(id) == EmptyView <==> id !in l.records
    ensures id in l.records ==>
      && l.NodeInfo(id) == NodeView(id, l.records[id].uri, l.records[id].entry)
      && l.GetTokenId(l.records[id].entry) == id
  {
  }

  /** `getTokenId` finds the live node holding an entry, and answers 0
      exactly when no live node holds it. */
  lemma GetTokenIdFinds(l: Ledger, entry: string)
    requires l.Valid()
    ensures l.GetTokenId(entry) != 0 <==> exists x :: x in l.records && l.records[x].entry == entry
    ensures l.GetTokenId(entry) != 0 ==>
      l.GetTokenId(entry) in l.records && l.records[l.GetTokenId(entry)].entry == entry
  {
  }

  /** The list queries and the by-index queries enumerate in the same order. */
  lemma ListsMatchIndex(l: Ledger)
    requires l.Valid()
    ensures forall i | 0 <= i < |l.NodeIds()| :: l.NodeByIndex(i) == Ok(l.NodeInfo(l.NodeIds()[i]))
  {
  }

  lemma OwnedListsMatchIndex(l: Ledger, a: Address)
    requires l.Valid()
    ensures forall i | 0 <= i < |l.OwnedNodeIds(a)| :: l.OwnedNodeByIndex(a, i) == Ok(l.NodeInfo(l.OwnedNodeIds(a)[i]))
  {
    OwnedValid(l.ownedIds, a);
  }

  // --------------------------------------------------------------------
  // Every transition keeps the ledger invariant

  lemma MintKeepsValid(l: Ledger, holder: Address, uri: string, entry: string)
    requires l.Valid() && entry !in l.entryIds
    ensures l.Mint(holder, uri, entry).Valid()
  {
    var id, rec := l.lastId + 1, Record(uri, entry, holder);
    var records, entryIds := l.records[id := rec], l.entryIds[entry := id];
    var allIds, added := l.allIds.Add(id), l.Owned(holder).Add(id);
    var ownedIds := l.ownedIds[holder := added];
    assert id !in l.records;
    OwnedValid(l.ownedIds, holder);
    InsertKeepsLive(l.allIds, l.records, id, rec, allIds, records);
    InsertKeepsIssued(l.records, l.lastId, rec, records);
    InsertKeepsEntries(l.records, l.entryIds, id, rec, records, entryIds);
    ReplaceKeepsSets(l.ownedIds, holder, added, ownedIds);
    InsertKeepsListed(l.records, l.ownedIds, id, rec, added, records, ownedIds);
    InsertKeepsHeld(l.records, l.ownedIds, id, rec, added, records, ownedIds);
    InsertKeepsApprovals(l.records, l.approvals, id, rec, records);
    assert l.Mint(holder, uri, entry) == Ledger(id, records, entryIds, allIds, ownedIds, l.approvals);
  }

  lemma BurnKeepsValid(l: Ledger, id: NodeId)
    requires l.Valid() && id in l.records
    ensures l.Burn(id).Valid()
  {
    var holder := l.records[id].holder;
    OwnedValid(l.ownedIds, holder);
    var records, entryIds := l.records - {id}, l.entryIds - {l.records[id].entry};
    var allIds, removed := l.allIds.Remove(id), l.Owned(holder).Remove(id);
    var ownedIds, approvals := l.ownedIds[holder := removed], l.approvals - {id};
    DeleteKeepsLive(l.allIds, l.records, id, allIds, records);
    DeleteKeepsIssued(l.records, l.lastId, id, records);
    DeleteKeepsEntries(l.records, l.entryIds, id, records, entryIds);
    ReplaceKeepsSets(l.ownedIds, holder, removed, ownedIds);
    DeleteKeepsListed(l.records, l.ownedIds, id, removed, records, ownedIds);
    DeleteKeepsHeld(l.records, l.ownedIds, id, removed, records, ownedIds);
    DeleteKeepsApprovals(l.records, l.approvals, id, records, approvals);
    assert l.Burn(id) == Ledger(l.lastId, records, entryIds, allIds, ownedIds, approvals);
  }

  lemma UpdateKeepsValid(l: Ledger, id: NodeId, uri: string, entry: string)
    requires l.Valid() && id in l.records
    requires entry !in l.entryIds || l.entryIds[entry] == id
    ensures l.Update(id, uri, entry).Valid()
  {
    var u := l.Update(id, uri, entry);
    var rec := Record(uri, entry, l.records[id].holder);
    RetagKeepsKeys(l.records, id, rec, u.records);
    RetagKeepsIssued(l.records, l.lastId, id, rec, u.records);
    UpdateKeepsEntries(l.records, l.entryIds, id, rec, u.records, u.entryIds);
    UpdateKeepsHoldings(l.records, l.ownedIds, id, rec, u.records);
    InsertKeepsApprovals(l.records, l.approvals, id, rec, u.records);
  }

  /** Moving a live id to holder `to`: a removal from the old holder's set
      followed by an insertion into the new holder's set. */
  lemma MoveKeepsHoldings(records: map<NodeId, Record>, ownedIds: map<Address, IdSet>, id: NodeId, to: Address,
                          vacated: map<Address, IdSet>, records': map<NodeId, Record>, ownedIds': map<Address, IdSet>)
    requires HoldingsIndexed(records, ownedIds) && id in records
    requires vacated == ownedIds[records[id].holder := OwnedIn(ownedIds, records[id].holder).Remove(id)]
    requires records' == records[id := records[id].(holder := to)]
    requires ownedIds' == vacated[to := OwnedIn(vacated, to).Add(id)]
    ensures HoldingsIndexed(records', ownedIds')
  {
    var from, rec := records[id].holder, records[id].(holder := to);
    OwnedValid(ownedIds, from);
    var removed := OwnedIn(ownedIds, from).Remove(id);
    var records0 := records - {id};
    ReplaceKeepsSets(ownedIds, from, removed, vacated);
    DeleteKeepsListed(records, ownedIds, id, removed, records0, vacated);
    DeleteKeepsHeld(records, ownedIds, id, removed, records0, vacated);
    OwnedValid(vacated, to);
    var added := OwnedIn(vacated, to).Add(id);
    ReinsertIsUpdate(records, id, rec);
    ReplaceKeepsSets(vacated, to, added, ownedIds');
    InsertKeepsListed(records0, vacated, id, rec, added, records', ownedIds');
    InsertKeepsHeld(records0, vacated, id, rec, added, records', ownedIds');
  }

  lemma ReinsertIsUpdate(records: map<NodeId, Record>, id: NodeId, rec: Record)
    ensures (records - {id})[id := rec] == records[id := rec]
  {
  }

  lemma TransferKeepsValid(l: Ledger, id: NodeId, to: Address)
    requires l.Valid() && id in l.records
    ensures l.Transfer(id, to).Valid()
  {
    var from := l.records[id].holder;
    var rec := l.records[id].(holder := to);
    var vacated := l.ownedIds[from := l.Owned(from).Remove(id)];
    var records, ownedIds, approvals := l.records[id := rec], vacated[to := OwnedIn(vacated, to).Add(id)], l.approvals - {id};
    MoveKeepsHoldings(l.records, l.ownedIds, id, to, vacated, records, ownedIds);
    RetagKeepsKeys(l.records, id, rec, records);
    RetagKeepsIssued(l.records, l.lastId, id, rec, records);
    RetagKeepsEntries(l.records, l.entryIds, id, rec, records);
    RetagKeepsApprovals(l.records, l.approvals, id, rec, records, approvals);
    assert l.Transfer(id, to) == Ledger(l.lastId, records, l.entryIds, l.allIds, ownedIds, approvals);
  }

  lemma ApproveKeepsValid(l: Ledger, id: NodeId, to: Address)
    requires l.Valid() && id in l.records
    ensures l.Approve(id, to).Valid()
  {
    var approvals := if to == ZeroAddress then l.approvals - {id} else l.approvals[id := to];
    ApproveKeepsApprovals(l.records, l.approvals, id, to, approvals);
    assert l.Approve(id, to) == l.(approvals := approvals);
  }

  // --------------------------------------------------------------------
  // What each transition changes

  /** Registration issues the next counter value: no live node has it and
      it exceeds every id issued before. Every other node is as it was. */
  lemma MintIssuesFresh(l: Ledger, holder: Address, uri: string, entry: string, m: Ledger)
    requires IdsIssued(l.records, l.lastId) && m == l.Mint(holder, uri, entry)
    ensures m.lastId == l.lastId + 1 && m.records.Keys == l.records.Keys + {m.lastId}
    ensures m.records[m.lastId] == Record(uri, entry, holder)
    ensures forall id | id in l.records :: id < m.lastId && m.records[id] == l.records[id]
  {
  }

  /** The new node can be looked up by id and by entry. */
  lemma MintResolves(l: Ledger, holder: Address, uri: string, entry: string, m: Ledger)
    requires m == l.Mint(holder, uri, entry)
    ensures m.NodeInfo(m.lastId) == NodeView(m.lastId, uri, entry)
    ensures m.GetTokenId(entry) == m.lastId
  {
  }

  /** The new id is appended to the global and the holder's enumeration. */
  lemma MintAppends(l: Ledger, holder: Address, uri: string, entry: string, m: Ledger)
    requires l.Valid() && entry !in l.entryIds && m == l.Mint(holder, uri, entry)
    ensures m.Valid()
    ensures m.NodeIds() == l.NodeIds() + [m.lastId]
    ensures m.OwnedNodeIds(holder) == l.OwnedNodeIds(holder) + [m.lastId]
  {
    MintKeepsValid(l, holder, uri, entry);
    OwnedValid(l.ownedIds, holder);
    assert m.lastId !in l.records;
  }

  /** Registration leaves every other holder's enumeration as it was. */
  lemma MintKeepsOtherLists(l: Ledger, holder: Address, uri: string, entry: string, m: Ledger)
    requires l.Valid() && entry !in l.entryIds && m == l.Mint(holder, uri, entry)
    ensures m.Valid()
    ensures forall a | a != holder :: m.OwnedNodeIds(a) == l.OwnedNodeIds(a)
  {
    MintKeepsValid(l, holder, uri, entry);
    forall a | a != holder
      ensures m.OwnedNodeIds(a) == l.OwnedNodeIds(a)
    {
      MintKeepsOtherSet(l, holder, uri, entry, m, a);
      ListsFollowSets(l, m, a);
    }
  }

  /** Registration changes no enumerable set but the caller's. */
  lemma MintKeepsOtherSet(l: Ledger, holder: Address, uri: string, entry: string, m: Ledger, a: Address)
    requires m == l.Mint(holder, uri, entry) && a != holder
    ensures m.Owned(a) == l.Owned(a)
  {
  }

  /** Retirement removes the node and its approval and keeps the counter, so
      the id is never issued again. */
  lemma BurnRetires(l: Ledger, id: NodeId, b: Ledger)
    requires l.Valid() && id in l.records && b == l.Burn(id)
    ensures b.lastId == l.lastId && id <= b.lastId
    ensures b.records == l.records - {id}
    ensures b.Approved(id) == ZeroAddress
  {
  }

  /** A retired id is never issued again: the next registration gets a
      larger id and the retired one stays dead. */
  lemma BurnedIdNeverReissued(l: Ledger, id: NodeId, b: Ledger, holder: Address, uri: string, entry: string)
    requires l.Valid() && id in l.records && b == l.Burn(id)
    ensures id < b.Mint(holder, uri, entry).lastId
    ensures id !in b.Mint(holder, uri, entry).records
  {
    BurnRetires(l, id, b);
    BurnKeepsValid(l, id);
    MintIssuesFresh(b, holder, uri, entry, b.Mint(holder, uri, entry));
  }

  /** After retirement the id shows the empty view and its entry resolves to
      nothing. */
  lemma BurnResolves(l: Ledger, id: NodeId, b: Ledger)
    requires l.Valid() && id in l.records && b == l.Burn(id)
    ensures b.NodeInfo(id) == EmptyView
    ensures b.GetTokenId(l.records[id].entry) == 0
  {
  }

  /** After retirement one node fewer is counted. */
  lemma BurnCounts(l: Ledger, id: NodeId, b: Ledger)
    requires l.Valid() && id in l.records && b == l.Burn(id)
    ensures b.Valid()
    ensures b.NodeCount() + 1 == l.NodeCount()
  {
    BurnKeepsValid(l, id);
  }

  /** Retirement takes the id out of the global and the holder's enumeration
      by swap and pop: the last listed id moves into the freed slot. */
  lemma BurnEnumerations(l: Ledger, id: NodeId, b: Ledger)
    requires l.Valid() && id in l.records && b == l.Burn(id)
    ensures b.Valid()
    ensures SwappedOut(l.NodeIds(), id, b.NodeIds())
    ensures SwappedOut(l.OwnedNodeIds(l.records[id].holder), id, b.OwnedNodeIds(l.records[id].holder))
  {
    BurnKeepsValid(l, id);
    var holder := l.records[id].holder;
    OwnedValid(l.ownedIds, holder);
    RemoveSwapsOut(l.allIds, id);
    RemoveSwapsOut(l.Owned(holder), id);
    assert b.Owned(holder) == l.Owned(holder).Remove(id);
  }

  /** Retirement leaves every other holder's enumeration as it was. */
  lemma BurnKeepsOtherLists(l: Ledger, id: NodeId, b: Ledger)
    requires l.Valid() && id in l.records && b == l.Burn(id)
    ensures b.Valid()
    ensures forall a | a != l.records[id].holder :: b.OwnedNodeIds(a) == l.OwnedNodeIds(a)
  {
    BurnKeepsValid(l, id);
    forall a | a != l.records[id].holder
      ensures b.OwnedNodeIds(a) == l.OwnedNodeIds(a)
    {
      BurnKeepsOtherSet(l, id, b, a);
      ListsFollowSets(l, b, a);
    }
  }

  /** Retirement changes no enumerable set but the holder's. */
  lemma BurnKeepsOtherSet(l: Ledger, id: NodeId, b: Ledger, a: Address)
    requires l.allIds.Valid() && SetsValid(l.ownedIds) && id in l.records && b == l.Burn(id)
    requires a != l.records[id].holder
    ensures b.Owned(a) == l.Owned(a)
  {
  }

  /** An update gives the node its new URI and entry, and the new entry
      resolves to the node. */
  lemma UpdateResolves(l: Ledger, id: NodeId, uri: string, entry: string, u: Ledger)
    requires id in l.records && u == l.Update(id, uri, entry)
    ensures u.NodeInfo(id) == NodeView(id, uri, entry)
    ensures u.GetTokenId(entry) == id
  {
  }

  /** A replaced entry is released: it resolves to nothing afterwards. */
  lemma UpdateReleases(l: Ledger, id: NodeId, uri: string, entry: string, u: Ledger)
    requires id in l.records && u == l.Update(id, uri, entry) && l.records[id].entry != entry
    ensures u.GetTokenId(l.records[id].entry) == 0
  {
  }

  /** An update keeps the counter, the holder and every other node. */
  lemma UpdateKeepsOthers(l: Ledger, id: NodeId, uri: string, entry: string, u: Ledger)
    requires id in l.records && u == l.Update(id, uri, entry)
    ensures u.lastId == l.lastId && u.records.Keys == l.records.Keys
    ensures u.records[id].holder == l.records[id].holder
    ensures forall x | x in l.records && x != id :: u.records[x] == l.records[x]
  {
  }

  /** An update leaves both enumerations as they were. */
  lemma UpdateKeepsLists(l: Ledger, id: NodeId, uri: string, entry: string, u: Ledger)
    requires l.Valid() && id in l.records && (entry !in l.entryIds || l.entryIds[entry] == id)
    requires u == l.Update(id, uri, entry)
    ensures u.Valid()
    ensures u.NodeIds() == l.NodeIds()
    ensures forall a :: u.OwnedNodeIds(a) == l.OwnedNodeIds(a)
  {
    UpdateKeepsValid(l, id, uri, entry);
    assert u.allIds == l.allIds && u.ownedIds == l.ownedIds;
  }

  /** A transfer changes the holder only, and clears the approval. */
  lemma TransferRetags(l: Ledger, id: NodeId, to: Address, t: Ledger)
    requires l.Valid() && id in l.records && t == l.Transfer(id, to)
    ensures t.lastId == l.lastId && t.records == l.records[id := l.records[id].(holder := to)]
    ensures t.Approved(id) == ZeroAddress
  {
  }

  /** The global enumeration is untouched; the id moves to the end of the new
      holder's enumeration and out of the old holder's. */
  lemma TransferEnumerations(l: Ledger, id: NodeId, to: Address, t: Ledger)
    requires l.Valid() && id in l.records && t == l.Transfer(id, to)
    ensures t.Valid()
    ensures t.NodeIds() == l.NodeIds()
    ensures to != l.records[id].holder ==> t.OwnedNodeIds(to) == l.OwnedNodeIds(to) + [id]
    ensures to != l.records[id].holder ==> SwappedOut(l.OwnedNodeIds(l.records[id].holder), id, t.OwnedNodeIds(l.records[id].holder))
  {
    TransferKeepsValid(l, id, to);
    var from := l.records[id].holder;
    OwnedValid(l.ownedIds, from);
    if to != from {
      OwnedValid(l.ownedIds, to);
      assert t.Owned(to) == l.Owned(to).Add(id);
      RemoveSwapsOut(l.Owned(from), id);
      assert t.Owned(from) == l.Owned(from).Remove(id);
    }
  }

  /** A transfer leaves the enumerations of every holder other than the
      sender and the recipient as they were. */
  lemma TransferKeepsOtherLists(l: Ledger, id: NodeId, to: Address, t: Ledger)
    requires l.Valid() && id in l.records && t == l.Transfer(id, to)
    ensures t.Valid()
    ensures forall a | a != l.records[id].holder && a != to :: t.OwnedNodeIds(a) == l.OwnedNodeIds(a)
  {
    TransferKeepsValid(l, id, to);
    forall a | a != l.records[id].holder && a != to
      ensures t.OwnedNodeIds(a) == l.OwnedNodeIds(a)
    {
      TransferKeepsOtherSet(l, id, to, t, a);
      ListsFollowSets(l, t, a);
    }
  }

  /** A transfer changes no enumerable set but the sender's and the
      recipient's. */
  lemma TransferKeepsOtherSet(l: Ledger, id: NodeId, to: Address, t: Ledger, a: Address)
    requires SetsValid(l.ownedIds) && id in l.records && t == l.Transfer(id, to)
    requires a != l.records[id].holder && a != to
    ensures t.Owned(a) == l.Owned(a)
  {
  }

  /** Two consistent ledgers with the same enumerable set for `a` list the
      same ids for `a`. */
  lemma ListsFollowSets(l: Ledger, l': Ledger, a: Address)
    requires l.Valid() && l'.Valid() && l'.Owned(a) == l.Owned(a)
    ensures l'.OwnedNodeIds(a) == l.OwnedNodeIds(a)
  {
  }

  /** A transfer to the current holder moves the id to the end of the
      holder's enumeration: it is swapped out and appended again. */
  lemma TransferToHolder(l: Ledger, id: NodeId, t: Ledger)
    requires l.Valid() && id in l.records && t == l.Transfer(id, l.records[id].holder)
    ensures t.Valid()
    ensures var after := t.OwnedNodeIds(l.records[id].holder);
      && |after| == |l.OwnedNodeIds(l.records[id].holder)| > 0
      && after[|after| - 1] == id
      && SwappedOut(l.OwnedNodeIds(l.records[id].holder), id, after[..|after| - 1])
  {
    var holder := l.records[id].holder;
    TransferKeepsValid(l, id, holder);
    OwnedValid(l.ownedIds, holder);
    TransferToHolderSet(l, id, t);
  }

  lemma TransferToHolderSet(l: Ledger, id: NodeId, t: Ledger)
    requires SetsValid(l.ownedIds) && id in l.records && t == l.Transfer(id, l.records[id].holder)
    requires l.Owned(l.records[id].holder).Contains(id)
    ensures var after := t.Owned(l.records[id].holder).values;
      && |after| == |l.Owned(l.records[id].holder).values| > 0
      && after[|after| - 1] == id
      && SwappedOut(l.Owned(l.records[id].holder).values, id, after[..|after| - 1])
  {
    var holder := l.records[id].holder;
    OwnedValid(l.ownedIds, holder);
    var removed := l.Owned(holder).Remove(id);
    RemoveSwapsOut(l.Owned(holder), id);
    assert t.Owned(holder) == removed.Add(id);
    var after := t.Owned(holder).values;
    assert after == removed.values + [id];
    assert after[..|after| - 1] == removed.values;
  }

  /** Approval changes the approved address of one node and nothing else. */
  lemma ApproveEffects(l: Ledger, id: NodeId, to: Address, a: Ledger)
    requires l.Valid() && id in l.records && a == l.Approve(id, to)
    ensures a.Valid()
    ensures a.Approved(id) == to
    ensures forall x | x != id :: a.Approved(x) == l.Approved(x)
    ensures a.records == l.records && a.NodeIds() == l.NodeIds()
    ensures a == l.(approvals := a.approvals)
  {
    ApproveKeepsValid(l, id, to);
  }

  // --------------------------------------------------------------------
  // Properties of a consistent ledger

  /** No two live nodes share an entry. */
  lemma EntriesUnique(l: Ledger, a: NodeId, b: NodeId)
    requires l.Valid() && a in l.records && b in l.records && a != b
    ensures l.records[a].entry != l.records[b].entry
  {
    assert l.entryIds[l.records[a].entry] == a;
  }

  /** Every live id is listed in the global enumeration and in its holder's
      enumeration, and in no other holder's. */
  lemma IndexedOnce(l: Ledger, id: NodeId)
    requires l.Valid() && id in l.records
    ensures id in l.NodeIds()
    ensures id in l.OwnedNodeIds(l.records[id].holder)
    ensures forall a | a != l.records[id].holder :: id !in l.OwnedNodeIds(a)
  {
  }

  // --------------------------------------------------------------------
  // The revert conditions of the node operations, in the order the
  // contract checks them

  /** `spender` is the holder of `id`, its approved address, or an operator
      of the holder. */
  predicate IsApprovedOrOwner(l: Ledger, operators: set<(Address, Address)>, spender: Address, id: NodeId)
    requires id in l.records
  {
    var holder := l.records[id].holder;
    spender == holder || l.Approved(id) == spender || (holder, spender) in operators
  }

  function MintCheck(l: Ledger, paused: bool, fee: nat, value: nat, entry: string): Outcome {
    if paused then Fail(WhenPaused)
    else if value != fee then Fail(IncorrectFee)
    else if entry in l.entryIds then Fail(DuplicatedNode)
    else Done
  }

  function BurnCheck(l: Ledger, admin: Address, caller: Address, id: NodeId): Outcome {
    if id !in l.records then Fail(InvalidNodeId)
    else if caller != l.records[id].holder && caller != admin then Fail(NotNodeOwnerNorContractOwner)
    else Done
  }

  function UpdateCheck(l: Ledger, caller: Address, id: NodeId, entry: string): Outcome {
    if id !in l.records then Fail(InvalidNodeId)
    else if caller != l.records[id].holder then Fail(NotNodeOwner)
    else if entry in l.entryIds && l.entryIds[entry] != id then Fail(DuplicatedNode)
    else Done
  }

  function TransferCheck(l: Ledger, operators: set<(Address, Address)>, revealed: bool,
                         caller: Address, from: Address, to: Address, id: NodeId): Outcome
  {
    if id !in l.records then Fail(NonexistentToken)
    else if !IsApprovedOrOwner(l, operators, caller, id) then Fail(NotOwnerNorApproved)
    else if l.records[id].holder != from then Fail(TransferFromIncorrectOwner)
    else if to == ZeroAddress then Fail(TransferToZeroAddress)
    else if !revealed then Fail(NotRevealed)
    else Done
  }

  function ApproveCheck(l: Ledger, operators: set<(Address, Address)>, caller: Address, to: Address, id: NodeId): Outcome {
    if id !in l.records then Fail(NonexistentToken)
    else if to == l.records[id].holder then Fail(ApprovalToCurrentOwner)
    else if caller != l.records[id].holder && (l.records[id].holder, caller) !in operators then
      Fail(ApproveCallerNotOwnerNorApprovedForAll)
    else Done
  }

  /** Registration goes through exactly when the registry is not paused, the
      exact fee is attached and no live node has the entry; a paused
      registry refuses even a correctly paid registration. */
  lemma MintAdmits(l: Ledger, paused: bool, fee: nat, value: nat, entry: string)
    requires l.Valid()
    ensures MintCheck(l, paused, fee, value, entry) == Done <==>
      !paused && value == fee && forall id | id in l.records :: l.records[id].entry != entry
    ensures paused ==> MintCheck(l, paused, fee, value, entry) == Fail(WhenPaused)
  {
    if !paused && value == fee && entry in l.entryIds {
      assert l.records[l.entryIds[entry]].entry == entry;
    }
  }

  /** Only the holder or the contract owner may retire a live node. */
  lemma BurnAdmits(l: Ledger, admin: Address, caller: Address, id: NodeId)
    ensures BurnCheck(l, admin, caller, id) == Done <==>
      id in l.records && (caller == l.records[id].holder || caller == admin)
  {
  }

  /** Only the holder may update a live node, and only to an entry no other
      live node has; keeping the node's own entry is allowed. */
  lemma UpdateAdmits(l: Ledger, caller: Address, id: NodeId, entry: string)
    requires l.Valid()
    ensures UpdateCheck(l, caller, id, entry) == Done <==>
      && id in l.records && caller == l.records[id].holder
      && forall x | x in l.records && x != id :: l.records[x].entry != entry
  {
    if id in l.records && caller == l.records[id].holder && entry in l.entryIds && l.entryIds[entry] != id {
      assert l.records[l.entryIds[entry]].entry == entry;
    }
  }

  /** A transfer goes through exactly when the collection is revealed, `from`
      holds the node, `to` is not zero and the caller is the holder, the
      node's approved address or an operator of the holder. Before the
      reveal nobody can transfer. */
  lemma TransferAdmits(l: Ledger, operators: set<(Address, Address)>, revealed: bool,
                       caller: Address, from: Address, to: Address, id: NodeId)
    ensures TransferCheck(l, operators, revealed, caller, from, to, id) == Done <==>
      && revealed && id in l.records && l.records[id].holder == from && to != ZeroAddress
      && (caller == from || l.Approved(id) == caller || (from, caller) in operators)
    ensures !revealed ==> TransferCheck(l, operators, revealed, caller, from, to, id).Fail?
  {
  }

  /** The holder or an operator of the holder may approve any address other
      than the holder itself. */
  lemma ApproveAdmits(l: Ledger, operators: set<(Address, Address)>, caller: Address, to: Address, id: NodeId)
    ensures ApproveCheck(l, operators, caller, to, id) == Done <==>
      && id in l.records && to != l.records[id].holder
      && (caller == l.records[id].holder || (l.records[id].holder, caller) in operators)
  {
  }

  // --------------------------------------------------------------------
  // The deployed contract

  class Registry {
    /** The contract owner (administrative principal). */
    const admin: Address

    var ledger: Ledger
    /** ERC-721 operator approvals: (holder, operator) pairs. */
    var operators: set<(Address, Address)>
    var revealed: bool
    var paused: bool
    var platformAddr: Address
    var platformFee: nat
    /** Native currency forwarded to each address by registration fees. */
    var credited: map<Address, nat>
    var events: seq<Event>

    ghost predicate Valid()
      reads this`ledger
    {
      ledger.Valid()
    }

    /** Deployment: `initialize(platformAddr, platformFee)` run by `admin`. */
    constructor (admin: Address, platformAddr: Address, platformFee: nat)
      ensures Valid()
      ensures this.admin == admin && this.platformAddr == platformAddr && this.platformFee == platformFee
      ensures ledger == Genesis && operators == {}
      ensures !revealed && !paused && credited == map[] && events == []
    {
      this.admin := admin;
      ledger := Genesis;
      operators := {};
      revealed := false;
      paused := false;
      this.platformAddr := platformAddr;
      this.platformFee := platformFee;
      credited := map[];
      events := [];
      GenesisIsValid();
    }

    // ------------------------------------------------------------------
    // Registration, update, retirement

    /** `mint(uri, entry)` with `value` attached: issues id lastId + 1 to the
        caller and forwards the whole value to the platform address. */
    method Mint(caller: Address, uri: string, entry: string, value: nat) returns (r: Result<NodeId>)
      requires Valid()
      modifies this`ledger, this`credited, this`events
      ensures Valid()
      ensures r.Err? <==> MintCheck(old(ledger), old(paused), old(platformFee), value, entry).Fail?
      ensures r.Err? ==> Fail(r.error) == MintCheck(old(ledger), old(paused), old(platformFee), value, entry)
      ensures r.Err? ==> unchanged(this)
      ensures r.Ok? ==>
        && ledger == old(ledger).Mint(caller, uri, entry)
        && r.value == ledger.lastId
        && credited == old(credited)[old(platformAddr) := CreditOf(old(credited), old(platformAddr)) + value]
        && events == old(events) + [Transfer(ZeroAddress, caller, r.value),
                                    RegisteredFees(r.value, old(platformAddr), value),
                                    NodeRegistered(r.value, uri, entry)]
    {
      var check := MintCheck(ledger, paused, platformFee, value, entry);
      if check.Fail? {
        return Err(check.error);
      }
      var id := ledger.lastId + 1;
      credited := credited[platformAddr := CreditOf(credited, platformAddr) + value];
      events := events + [Transfer(ZeroAddress, caller, id), RegisteredFees(id, platformAddr, value),
                          NodeRegistered(id, uri, entry)];
      MintKeepsValid(ledger, caller, uri, entry);
      ledger := ledger.Mint(caller, uri, entry);
      r := Ok(id);
    }

    /** `burn(id)`: by the node's holder or the contract owner. */
    method Burn(caller: Address, id: NodeId) returns (r: Outcome)
      requires Valid()
      modifies this`ledger, this`events
      ensures Valid()
      ensures r == BurnCheck(old(ledger), admin, caller, id)
      ensures r.Fail? ==> unchanged(this)
      ensures r.Done? ==>
        && id in old(ledger.records)
        && ledger == old(ledger).Burn(id)
        && var holder := old(ledger.records)[id].holder;
        events == old(events) + [Approval(holder, ZeroAddress, id), Transfer(holder, ZeroAddress, id),
                                 NodeUnregistered(id)]
    {
      r := BurnCheck(ledger, admin, caller, id);
      if r.Fail? {
        return;
      }
      var holder := ledger.records[id].holder;
      events := events + [Approval(holder, ZeroAddress, id), Transfer(holder, ZeroAddress, id), NodeUnregistered(id)];
      BurnKeepsValid(ledger, id);
      ledger := ledger.Burn(id);
    }

    /** `updateNode(id, uri, entry)`: by the holder only. */
    method UpdateNode(caller: Address, id: NodeId, uri: string, entry: string) returns (r: Outcome)
      requires Valid()
      modifies this`ledger, this`events
      ensures Valid()
      ensures r == UpdateCheck(old(ledger), caller, id, entry)
      ensures r.Fail? ==> unchanged(this)
      ensures r.Done? ==>
        && id in old(ledger.records)
        && ledger == old(ledger).Update(id, uri, entry)
        && events == old(events) + [NodeUpdated(id, uri, entry)]
    {
      r := UpdateCheck(ledger, caller, id, entry);
      if r.Fail? {
        return;
      }
      events := events + [NodeUpdated(id, uri, entry)];
      UpdateKeepsValid(ledger, id, uri, entry);
      ledger := ledger.Update(id, uri, entry);
    }

    // ------------------------------------------------------------------
    // ERC-721 transfer and approvals

    /** `transferFrom(from, to, id)`, gated by the reveal latch. */
    method TransferFrom(caller: Address, from: Address, to: Address, id: NodeId) returns (r: Outcome)
      requires Valid()
      modifies this`ledger, this`events
      ensures Valid()
      ensures r == TransferCheck(old(ledger), old(operators), old(revealed), caller, from, to, id)
      ensures r.Fail? ==> unchanged(this)
      ensures r.Done? ==>
        && id in old(ledger.records)
        && ledger == old(ledger).Transfer(id, to)
        && events == old(events) + [Approval(from, ZeroAddress, id), Transfer(from, to, id)]
    {
      r := TransferCheck(ledger, operators, revealed, caller, from, to, id);
      if r.Fail? {
        return;
      }
      events := events + [Approval(from, ZeroAddress, id), Transfer(from, to, id)];
      TransferKeepsValid(ledger, id, to);
      ledger := ledger.Transfer(id, to);
    }

    /** `approve(to, id)`: by the holder or one of the holder's operators. */
    method Approve(caller: Address, to: Address, id: NodeId) returns (r: Outcome)
      requires Valid()
      modifies this`ledger, this`events
      ensures Valid()
      ensures r == ApproveCheck(old(ledger), old(operators), caller, to, id)
      ensures r.Fail? ==> unchanged(this)
      ensures r.Done? ==>
        && id in old(ledger.records)
        && ledger == old(ledger).Approve(id, to)
        && events == old(events) + [Approval(old(ledger.records)[id].holder, to, id)]
    {
      r := ApproveCheck(ledger, operators, caller, to, id);
      if r.Fail? {
        return;
      }
      events := events + [Approval(ledger.records[id].holder, to, id)];
      ApproveKeepsValid(ledger, id, to);
      ledger := ledger.Approve(id, to);
    }

    /** `setApprovalForAll(operator, approved)`. */
    method SetApprovalForAll(caller: Address, operator: Address, approved: bool) returns (r: Outcome)
      modifies this`operators, this`events
      ensures operator == caller <==> r == Fail(ApproveToCaller)
      ensures operator != caller ==> r == Done
      ensures r.Fail? ==> unchanged(this)
      ensures r.Done? ==>
        && ((caller, operator) in operators <==> approved)
        && (forall p | p != (caller, operator) :: p in operators <==> p in old(operators))
        && events == old(events) + [ApprovalForAll(caller, operator, approved)]
    {
      if operator == caller {
        return Fail(ApproveToCaller);
      }
      operators := if approved then operators + {(caller, operator)} else operators - {(caller, operator)};
      events := events + [ApprovalForAll(caller, operator, approved)];
      r := Done;
    }

    // ------------------------------------------------------------------
    // Administration

    /** `reveal()`: owner only, a one-shot latch. */
    method Reveal(caller: Address) returns (r: Outcome)
      modifies this`revealed, this`events
      ensures caller != admin ==> r == Fail(CallerNotContractOwner)
      ensures caller == admin && old(revealed) ==> r == Fail(AlreadyRevealed)
      ensures caller == admin && !old(revealed) ==> r == Done
      ensures r.Fail? ==> unchanged(this)
      ensures r.Done? ==> !old(revealed) && revealed && IsRevealed() == 1 && events == old(events) + [Revealed(1)]
    {
      if caller != admin {
        return Fail(CallerNotContractOwner);
      }
      if revealed {
        return Fail(AlreadyRevealed);
      }
      revealed := true;
      events := events + [Revealed(1)];
      r := Done;
    }

    /** `isRevealed()`: 1 once revealed, 0 before. */
    function IsRevealed(): (flag: nat)
      reads this`revealed
      ensures flag <= 1
      ensures flag == 1 <==> revealed
    {
      if revealed then 1 else 0
    }

    /** `pause()`: owner only; blocks `mint` and nothing else. */
    method Pause(caller: Address) returns (r: Outcome)
      modifies this`paused, this`events
      ensures caller != admin ==> r == Fail(CallerNotContractOwner)
      ensures caller == admin && old(paused) ==> r == Fail(WhenPaused)
      ensures caller == admin && !old(paused) ==> r == Done
      ensures r.Fail? ==> unchanged(this)
      ensures r.Done? ==> !old(paused) && paused && events == old(events) + [Paused(caller)]
    {
      if caller != admin {
        return Fail(CallerNotContractOwner);
      }
      if paused {
        return Fail(WhenPaused);
      }
      paused := true;
      events := events + [Paused(caller)];
      r := Done;
    }

    /** `unpause()`: owner only. */
    method Unpause(caller: Address) returns (r: Outcome)
      modifies this`paused, this`events
      ensures caller != admin ==> r == Fail(CallerNotContractOwner)
      ensures caller == admin && !old(paused) ==> r == Fail(WhenNotPaused)
      ensures caller == admin && old(paused) ==> r == Done
      ensures r.Fail? ==> unchanged(this)
      ensures r.Done? ==> old(paused) && !paused && events == old(events) + [Unpaused(caller)]
    {
      if caller != admin {
        return Fail(CallerNotContractOwner);
      }
      if !paused {
        return Fail(WhenNotPaused);
      }
      paused := false;
      events := events + [Unpaused(caller)];
      r := Done;
    }

    /** `setPlatformFee(addr, fee)`: owner only; the zero address is refused. */
    method SetPlatformFee(caller: Address, addr: Address, fee: nat) returns (r: Outcome)
      modifies this`platformAddr, this`platformFee, this`events
      ensures caller != admin ==> r == Fail(CallerNotContractOwner)
      ensures caller == admin && addr == ZeroAddress ==> r == Fail(InvalidPlatformAddress)
      ensures caller == admin && addr != ZeroAddress ==> r == Done
      ensures r.Fail? ==> unchanged(this)
      ensures r.Done? ==>
        && GetPlatformFee() == (addr, fee) && addr != ZeroAddress
        && events == old(events) + [PlatformFeeChanged(addr, fee)]
    {
      if caller != admin {
        return Fail(CallerNotContractOwner);
      }
      if addr == ZeroAddress {
        return Fail(InvalidPlatformAddress);
      }
      platformAddr := addr;
      platformFee := fee;
      events := events + [PlatformFeeChanged(addr, fee)];
      r := Done;
    }

    /** `getPlatformFee()`. */
    function GetPlatformFee(): (Address, nat)
      reads this`platformAddr, this`platformFee
    {
      (platformAddr, platformFee)
    }
  }
}
