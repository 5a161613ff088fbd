/** Broker position sync: reconciling the positions a linked broker account
    reports with the user's holdings, and the account's sync status.  The
    broker provider is an input: its positions (or the error it raised) and
    whether its access token is still valid are parameters. */
module BrokerSync {
  import opened Common
  import opened Records
  import opened HoldingStore
  import opened Importers

  /** The only broker type with a provider. */
  const PlaidBroker: string := "plaid"

  const UpsertMode: string := "upsert"

  /** `BrokerPosition` */
  datatype BrokerPosition = BrokerPosition(
    symbol: string,
    shares: real,
    costBasisPerShare: Option<real>,
    currentPrice: Option<real>,
    accountId: string,
    securityType: string,
    securityName: Option<string>)

  /** `SyncResult`; `syncedAt` is the time of the call. */
  datatype SyncResult = SyncResult(
    success: bool,
    positionsFetched: nat,
    positionsSynced: nat,
    created: nat,
    updated: nat,
    skipped: nat,
    errors: seq<string>,
    syncedAt: int)

  /** A failed sync: nothing fetched, nothing counted, one error. */
  function Failure(message: string, now: int): (r: SyncResult)
    ensures !r.success && r.errors == [message]
    ensures r.positionsFetched == 0 && r.positionsSynced == 0 && r.created == 0 && r.updated == 0 && r.skipped == 0
  {
    SyncResult(false, 0, 0, 0, 0, 0, [message], now)
  }

  /** The security types that are synced. */
  predicate Syncable(securityType: string) {
    securityType == "equity" || securityType == "etf" || securityType == "mutual fund"
  }

  /** A cost basis that is present and positive (`not c or c <= 0` fails). */
  predicate ValidCost(c: Option<real>) {
    c.Some? && c.value > 0.0
  }

  /** `pos.cost_basis_per_share or existing.cost_basis`: a missing or zero
      cost keeps the holding's. */
  function SyncedCost(pos: BrokerPosition, existing: Holding): (c: real)
    ensures pos.costBasisPerShare.Some? && pos.costBasisPerShare.value != 0.0 ==> c == pos.costBasisPerShare.value
    ensures pos.costBasisPerShare.None? || pos.costBasisPerShare.value == 0.0 ==> c == existing.costBasis
  {
    if pos.costBasisPerShare.Some? && pos.costBasisPerShare.value != 0.0 then pos.costBasisPerShare.value
    else existing.costBasis
  }

  /** The rows past `start` all have a positive cost basis. */
  ghost predicate NewRowsPositive(start: nat, rows: seq<Holding>) {
    forall i :: start <= i < |rows| ==> rows[i].costBasis > 0.0
  }

  /** The sync of a position whose symbol the user holds as `e`: in "upsert"
      mode `e` gets the position's shares and its cost basis (or keeps its
      own), unless the update is refused; in any other mode it is skipped. */
  ghost predicate ExistingSynced(before: seq<Holding>, after: seq<Holding>, e: Holding, pos: BrokerPosition,
                                 mode: string, step: ImportStep)
  {
    var check := UpdateCheck(Some(pos.shares), Some(SyncedCost(pos, e)));
    if mode != UpsertMode then step == Skipped && after == before
    else if check.Some? then step == Failed(pos.symbol + ": " + check.value) && after == before
    else
      step == Changed && |after| == |before|
      && forall i :: 0 <= i < |after| ==>
           after[i] == if before[i].id == e.id
                       then Updated(before[i], Some(pos.shares), Some(SyncedCost(pos, e)), None)
                       else before[i]
  }

  /** What syncing `pos` leaves under its symbol, given what was there: an
      unsynced type changes nothing; a held symbol is updated with the
      position's shares and `SyncedCost` when the mode is "upsert" and
      `update` accepts them, and is otherwise kept; an unheld symbol gets a
      holding with the position's shares and cost when that cost is
      valid, and stays unheld otherwise. */
  ghost predicate SyncOutcome(before: seq<Holding>, after: seq<Holding>, userId: Id, pos: BrokerPosition,
                              mode: string)
  {
    var e := HoldingBySymbol(before, pos.symbol, userId);
    var h := HoldingBySymbol(after, pos.symbol, userId);
    if !Syncable(pos.securityType) then h == e
    else if e.Some? then
      var cost := SyncedCost(pos, e.value);
      if mode == UpsertMode && UpdateCheck(Some(pos.shares), Some(cost)).None?
      then h == Some(Updated(e.value, Some(pos.shares), Some(cost), None))
      else h == e
    else if ValidCost(pos.costBasisPerShare)
    then h.Some? && h.value.shares == pos.shares && h.value.costBasis == pos.costBasisPerShare.value
    else h.None?
  }

  /** The user's holding of the position's symbol has the position's shares
      and cost. */
  ghost predicate SyncHolds(rows: seq<Holding>, userId: Id, pos: BrokerPosition)
    requires pos.costBasisPerShare.Some?
  {
    var h := HoldingBySymbol(rows, pos.symbol, userId);
    h.Some? && h.value.shares == pos.shares && h.value.costBasis == pos.costBasisPerShare.value
  }

  /** No other position names the symbol of position `j`. */
  predicate SoleOfSymbol(positions: seq<BrokerPosition>, j: nat)
    requires j < |positions|
  {
    forall k :: 0 <= k < |positions| && k != j ==> Upper(positions[k].symbol) != Upper(positions[j].symbol)
  }

  /** Position `j` is the last of its symbol, the mode is "upsert", its type
      is synced and its shares and cost are positive, so whatever was held
      it ends up written. */
  predicate SyncedLast(positions: seq<BrokerPosition>, j: nat, mode: string)
    requires j < |positions|
  {
    var pos := positions[j];
    (forall k :: j < k < |positions| ==> Upper(positions[k].symbol) != Upper(pos.symbol))
    && mode == UpsertMode && Syncable(pos.securityType) && ValidCost(pos.costBasisPerShare) && pos.shares > 0.0
  }

  /** Updating the held row `e` in "upsert" mode with accepted values:
      the table grows, keeps its new rows positive and every other
      symbol's lookup, and the sync's outcome holds. */
  lemma SyncUpdated(before: seq<Holding>, after: seq<Holding>, nextId: nat, e: Holding, userId: Id,
                    pos: BrokerPosition, start: nat)
    requires TableValid((h: Holding) => h.id, before, nextId) && HoldingBySymbol(before, pos.symbol, userId) == Some(e)
    requires Syncable(pos.securityType) && UpdateCheck(Some(pos.shares), Some(SyncedCost(pos, e))).None?
    requires |after| == |before| && NewRowsPositive(start, before)
    requires forall i :: 0 <= i < |after| ==>
               after[i] == if before[i].id == e.id
                           then Updated(before[i], Some(pos.shares), Some(SyncedCost(pos, e)), None)
                           else before[i]
    ensures Grows(before, after, userId, nextId) && NewRowsPositive(start, after)
    ensures OthersKept(before, after, userId, pos.symbol)
    ensures SyncOutcome(before, after, userId, pos, UpsertMode)
    ensures ExistingSynced(before, after, e, pos, UpsertMode, Changed)
  {
    UpdatedFacts(before, after, nextId, e, userId, Some(pos.shares), Some(SyncedCost(pos, e)), pos.symbol);
  }

  /** Creating the holding of an unheld symbol with a valid cost: the table
      grows by that row, keeps its new rows positive and every other
      symbol's lookup, and the sync's outcome holds. */
  lemma SyncCreated(before: seq<Holding>, h: Holding, nextId: nat, userId: Id, pos: BrokerPosition, mode: string,
                    start: nat)
    requires Syncable(pos.securityType) && ValidCost(pos.costBasisPerShare)
    requires HoldingBySymbol(before, pos.symbol, userId).None? && NewRowsPositive(start, before)
    requires h == Holding(nextId, userId, Upper(pos.symbol), pos.shares, pos.costBasisPerShare.value, None)
    ensures Grows(before, before + [h], userId, nextId) && NewRowsPositive(start, before + [h])
    ensures OthersKept(before, before + [h], userId, pos.symbol) && Extends(before, before + [h])
    ensures SyncOutcome(before, before + [h], userId, pos, mode)
  {
    CreatedFacts(before, h, userId, nextId, pos.symbol);
  }

  /** The body of the loop of `_sync_positions` for one position. */
  method SyncOne(repo: HoldingRepository, userId: Id, pos: BrokerPosition, mode: string, ghost start: nat)
    returns (step: ImportStep)
    requires repo.Valid() && NewRowsPositive(start, repo.rows)
    modifies repo
    ensures repo.Valid() && repo.nextId >= old(repo.nextId)
    ensures Grows(old(repo.rows), repo.rows, userId, old(repo.nextId))
    ensures NewRowsPositive(start, repo.rows)
    ensures !Syncable(pos.securityType) ==> step == Skipped && repo.rows == old(repo.rows)
    ensures mode != UpsertMode ==> step != Changed && !step.Failed?
    ensures Syncable(pos.securityType) && HoldingBySymbol(old(repo.rows), pos.symbol, userId).None? ==>
              if ValidCost(pos.costBasisPerShare)
              then step == Created
                   && repo.rows == old(repo.rows) + [Holding(old(repo.nextId), userId, Upper(pos.symbol), pos.shares,
                                                             pos.costBasisPerShare.value, None)]
              else step == Skipped && repo.rows == old(repo.rows)
    ensures Syncable(pos.securityType) && HoldingBySymbol(old(repo.rows), pos.symbol, userId).Some? ==>
              ExistingSynced(old(repo.rows), repo.rows, HoldingBySymbol(old(repo.rows), pos.symbol, userId).value,
                             pos, mode, step)
    ensures SyncOutcome(old(repo.rows), repo.rows, userId, pos, mode)
    ensures OthersKept(old(repo.rows), repo.rows, userId, pos.symbol)
    ensures mode != UpsertMode ==> Extends(old(repo.rows), repo.rows)
  {
    if !Syncable(pos.securityType) {
      Unchanged(repo.rows, userId, repo.nextId, pos.symbol);
      return Skipped;
    }
    var existing := HoldingBySymbol(repo.rows, pos.symbol, userId);
    if existing.Some? {
      if mode != UpsertMode {
        Unchanged(repo.rows, userId, repo.nextId, pos.symbol);
        return Skipped;
      }
      ghost var before := repo.rows;
      var e := existing.value;
      assert FindHolding(before, e.id).Some? by {
        var i :| 0 <= i < |before| && before[i] == e;
      }
      var cost := SyncedCost(pos, e);
      var r := repo.Update(e.id, Some(pos.shares), Some(cost), None);
      if r.Err? {
        Unchanged(repo.rows, userId, repo.nextId, pos.symbol);
        return Failed(pos.symbol + ": " + r.error);
      }
      SyncUpdated(before, repo.rows, old(repo.nextId), e, userId, pos, start);
      step := Changed;
    } else {
      if !ValidCost(pos.costBasisPerShare) {
        Unchanged(repo.rows, userId, repo.nextId, pos.symbol);
        return Skipped;
      }
      var h := repo.Create(pos.symbol, pos.shares, pos.costBasisPerShare.value, None, userId);
      SyncCreated(old(repo.rows), h, old(repo.nextId), userId, pos, mode, start);
      step := Created;
    }
  }

  /** The loop of `_sync_positions` over the positions. */
  method SyncAll(repo: HoldingRepository, userId: Id, positions: seq<BrokerPosition>, mode: string)
    returns (created: nat, updated: nat, skipped: nat, errors: seq<string>)
    requires repo.Valid()
    modifies repo
    ensures repo.Valid() && repo.nextId >= old(repo.nextId)
    ensures Grows(old(repo.rows), repo.rows, userId, old(repo.nextId))
    ensures NewRowsPositive(|old(repo.rows)|, repo.rows)
    ensures created + updated + skipped + |errors| == |positions|
    ensures mode != UpsertMode ==> updated == 0 && errors == []
    ensures (forall j :: 0 <= j < |positions| ==> !Syncable(positions[j].securityType)) ==>
              created == 0 && updated == 0 && errors == [] && repo.rows == old(repo.rows)
    ensures mode != UpsertMode ==> Extends(old(repo.rows), repo.rows)
    ensures forall j :: 0 <= j < |positions| && SyncedLast(positions, j, mode) ==>
              SyncHolds(repo.rows, userId, positions[j])
    ensures forall j :: 0 <= j < |positions| && SoleOfSymbol(positions, j) ==>
              SyncOutcome(old(repo.rows), repo.rows, userId, positions[j], mode)
    ensures forall s :: Unlisted(positions, |positions|, s) ==>
              HoldingBySymbol(repo.rows, s, userId) == HoldingBySymbol(old(repo.rows), s, userId)
  {
    ghost var start, startId := repo.rows, repo.nextId;
    created, updated, skipped, errors := 0, 0, 0, [];
    GrowsRefl(start, userId, startId);
    for i := 0 to |positions|
      invariant repo.Valid() && repo.nextId >= startId
      invariant Grows(start, repo.rows, userId, startId)
      invariant NewRowsPositive(|start|, repo.rows)
      invariant created + updated + skipped + |errors| == i
      invariant mode != UpsertMode ==> updated == 0 && errors == []
      invariant (forall j :: 0 <= j < i ==> !Syncable(positions[j].securityType)) ==>
                  created == 0 && updated == 0 && errors == [] && repo.rows == start
      invariant mode != UpsertMode ==> Extends(start, repo.rows)
      invariant SyncProgress(start, repo.rows, userId, positions, i, mode)
      invariant UnlistedKept(start, repo.rows, userId, positions, i)
    {
      ghost var before, beforeId := repo.rows, repo.nextId;
      var step := SyncOne(repo, userId, positions[i], mode, |start|);
      GrowsTrans(start, before, repo.rows, userId, startId, beforeId);
      SyncStep(start, before, repo.rows, userId, positions, i, mode);
      UnlistedStep(start, before, repo.rows, userId, positions, i);
      if mode != UpsertMode {
        ExtendsTrans(start, before, repo.rows);
      }
      match step
      case Created => created := created + 1;
      case Changed => updated := updated + 1;
      case Skipped => skipped := skipped + 1;
      case Failed(m) => errors := errors + [m];
    }
  }

  /** After the first `i` positions: the last-of-symbol positions among them
      are written, the sole-of-symbol ones have their outcome, and the
      symbols of the sole positions still to come are as at the start. */
  ghost predicate SyncProgress(start: seq<Holding>, rows: seq<Holding>, userId: Id, positions: seq<BrokerPosition>,
                               i: nat, mode: string)
    requires i <= |positions|
  {
    && (forall j :: 0 <= j < i && SyncedLast(positions, j, mode) ==> SyncHolds(rows, userId, positions[j]))
    && (forall j :: 0 <= j < i && SoleOfSymbol(positions, j) ==>
          SyncOutcome(start, rows, userId, positions[j], mode))
    && (forall j :: i <= j < |positions| && SoleOfSymbol(positions, j) ==>
          HoldingBySymbol(rows, positions[j].symbol, userId) == HoldingBySymbol(start, positions[j].symbol, userId))
  }

  /** None of the first `n` positions lists `symbol`. */
  predicate Unlisted(positions: seq<BrokerPosition>, n: nat, symbol: string)
    requires n <= |positions|
  {
    forall j :: 0 <= j < n ==> Upper(positions[j].symbol) != Upper(symbol)
  }

  /** Every symbol that none of the first `n` positions lists is looked up
      as in `start`. */
  ghost predicate UnlistedKept(start: seq<Holding>, rows: seq<Holding>, userId: Id, positions: seq<BrokerPosition>,
                               n: nat)
    requires n <= |positions|
  {
    forall s {:trigger HoldingBySymbol(rows, s, userId)} :: Unlisted(positions, n, s) ==>
      HoldingBySymbol(rows, s, userId) == HoldingBySymbol(start, s, userId)
  }

  /** Syncing position `n`, which keeps every other symbol, keeps the symbols
      no position up to `n` lists. */
  lemma UnlistedStep(start: seq<Holding>, before: seq<Holding>, after: seq<Holding>, userId: Id,
                     positions: seq<BrokerPosition>, n: nat)
    requires n < |positions| && UnlistedKept(start, before, userId, positions, n)
    requires OthersKept(before, after, userId, positions[n].symbol)
    ensures UnlistedKept(start, after, userId, positions, n + 1)
  {
    forall s | Unlisted(positions, n + 1, s)
      ensures HoldingBySymbol(after, s, userId) == HoldingBySymbol(start, s, userId)
    {
      assert Unlisted(positions, n, s);
      assert Upper(positions[n].symbol) != Upper(s);
    }
  }

  /** Syncing position `i` keeps the progress. */
  lemma SyncStep(start: seq<Holding>, before: seq<Holding>, after: seq<Holding>, userId: Id,
                 positions: seq<BrokerPosition>, i: nat, mode: string)
    requires i < |positions|
    requires SyncProgress(start, before, userId, positions, i, mode)
    requires SyncOutcome(before, after, userId, positions[i], mode)
    requires OthersKept(before, after, userId, positions[i].symbol)
    ensures SyncProgress(start, after, userId, positions, i + 1, mode)
  {
    var pos := positions[i];
    forall j | 0 <= j < i && SyncedLast(positions, j, mode) ensures SyncHolds(after, userId, positions[j]) {
      assert Upper(pos.symbol) != Upper(positions[j].symbol);
    }
    if SyncedLast(positions, i, mode) && HoldingBySymbol(before, pos.symbol, userId).Some? {
      assert SyncedCost(pos, HoldingBySymbol(before, pos.symbol, userId).value) == pos.costBasisPerShare.value;
    }
    forall j | 0 <= j < i && SoleOfSymbol(positions, j) ensures SyncOutcome(start, after, userId, positions[j], mode) {
      assert Upper(pos.symbol) != Upper(positions[j].symbol);
    }
    forall j | i < j < |positions| && SoleOfSymbol(positions, j)
      ensures HoldingBySymbol(after, positions[j].symbol, userId) == HoldingBySymbol(start, positions[j].symbol, userId)
    {
      assert Upper(pos.symbol) != Upper(positions[j].symbol);
    }
  }

  /** A row whose id is from `nextId` on is past the rows of a table whose
      ids are all below `nextId`. */
  lemma NewIdsPositive(start: seq<Holding>, rows: seq<Holding>, userId: Id, nextId: nat)
    requires TableValid((h: Holding) => h.id, start, nextId)
    requires Grows(start, rows, userId, nextId) && NewRowsPositive(|start|, rows)
    ensures forall x :: x in rows && x.id >= nextId ==> x.costBasis > 0.0
  {
    forall x | x in rows && x.id >= nextId ensures x.costBasis > 0.0 {
      var i :| 0 <= i < |rows| && rows[i] == x;
    }
  }

  /** What syncing `positions` for `userId` in `mode` leaves in the table
      that held `before` with next id `nextId`:
      - every holding created has a positive cost basis;
      - other users' holdings are untouched;
      - outside "replace" no held id or symbol disappears, and a symbol no
        position lists keeps its holding as it was;
      - with "replace" all the user's holdings are new;
      - in a mode other than "upsert" and "replace" rows are only appended;
      - the last position of a symbol written in "upsert" holds its shares
        and cost;
      - a position whose symbol no other position lists has `SyncOutcome`,
        from an empty table of the user's holdings under "replace". */
  ghost predicate SyncApplied(before: seq<Holding>, nextId: nat, after: seq<Holding>, userId: Id,
                              positions: seq<BrokerPosition>, mode: string)
  {
    && (forall x :: x in after && x.id >= nextId ==> x.costBasis > 0.0)
    && (forall h: Holding :: h.userId != userId ==> (h in after <==> h in before))
    && (mode != ReplaceMode ==>
          && (forall id :: FindHolding(before, id).Some? ==> FindHolding(after, id).Some?)
          && (forall symbol :: HoldingBySymbol(before, symbol, userId).Some? ==>
                                 HoldingBySymbol(after, symbol, userId).Some?)
          && (forall s :: Unlisted(positions, |positions|, s) ==>
                            HoldingBySymbol(after, s, userId) == HoldingBySymbol(before, s, userId)))
    && (mode == ReplaceMode ==> forall x :: x in after && x.userId == userId ==> x.id >= nextId)
    && (mode != UpsertMode && mode != ReplaceMode ==> Extends(before, after))
    && (forall j :: 0 <= j < |positions| && SyncedLast(positions, j, mode) ==> SyncHolds(after, userId, positions[j]))
    && (forall j :: 0 <= j < |positions| && SoleOfSymbol(positions, j) ==>
          SyncOutcome(if mode == ReplaceMode then [] else before, after, userId, positions[j], mode))
  }

  /** Outcomes stated from a table that holds none of the user's rows hold
      from the empty table too. */
  lemma OutcomesFromEmpty(start: seq<Holding>, rows: seq<Holding>, userId: Id, positions: seq<BrokerPosition>,
                          mode: string)
    requires forall i :: 0 <= i < |start| ==> start[i].userId != userId
    requires forall j :: 0 <= j < |positions| && SoleOfSymbol(positions, j) ==>
               SyncOutcome(start, rows, userId, positions[j], mode)
    ensures forall j :: 0 <= j < |positions| && SoleOfSymbol(positions, j) ==>
              SyncOutcome([], rows, userId, positions[j], mode)
  {
    forall j | 0 <= j < |positions| && SoleOfSymbol(positions, j)
      ensures SyncOutcome([], rows, userId, positions[j], mode)
    {
      assert HoldingBySymbol(start, positions[j].symbol, userId).None?;
      assert SyncOutcome(start, rows, userId, positions[j], mode);
    }
  }

  /** `_sync_positions(user_id, positions, mode)`: every position is counted
      once; only "upsert" updates (so only it can fail); every holding it
      creates has a positive cost basis; other users' holdings are
      untouched; outside "replace" none of the user's holdings disappear,
      and with "replace" all of them are new; outside "upsert" and
      "replace" it only appends; the last position of each symbol that
      "upsert" must write is written; and a position whose symbol no other
      position names has its `SyncOutcome` against the table as it was
      (against an empty table with "replace"). */
  method SyncPositions(repo: HoldingRepository, userId: Id, positions: seq<BrokerPosition>, mode: string, now: int)
    returns (result: SyncResult)
    requires repo.Valid()
    modifies repo
    ensures repo.Valid()
    ensures result.positionsFetched == |positions|
    ensures result.positionsSynced == result.created + result.updated
    ensures result.success <==> result.errors == []
    ensures result.created + result.updated + result.skipped + |result.errors| == |positions|
    ensures result.syncedAt == now
    ensures mode != UpsertMode ==> result.updated == 0 && result.success
    ensures (forall j :: 0 <= j < |positions| ==> !Syncable(positions[j].securityType)) ==>
              result.created == 0 && result.updated == 0 && result.skipped == |positions| && result.success
    ensures SyncApplied(old(repo.rows), old(repo.nextId), repo.rows, userId, positions, mode)
  {
    if mode == ReplaceMode {
      DeleteUserHoldings(repo, userId);
      assert forall i :: 0 <= i < |repo.rows| ==> repo.rows[i].userId != userId by {
        assert forall i :: 0 <= i < |repo.rows| ==> repo.rows[i] in repo.rows;
      }
    }
    ghost var start, startId := repo.rows, repo.nextId;
    var created, updated, skipped, errors := SyncAll(repo, userId, positions, mode);
    if mode == ReplaceMode {
      OutcomesFromEmpty(start, repo.rows, userId, positions, mode);
    }
    GrowsFacts(start, repo.rows, userId, startId);
    NewIdsPositive(start, repo.rows, userId, startId);
    result := SyncResult(errors == [], |positions|, created + updated, created, updated, skipped, errors, now);
  }

  /** `LinkedBrokerAccount`: the fields the sync reads and writes. */
  class LinkedAccount {
    var userId: Id
    var brokerType: string
    var syncEnabled: bool
    var isActive: bool
    var syncMode: string
    var lastSyncedAt: Option<int>
    var lastSyncError: Option<string>
    var needsReauth: bool

    constructor(userId: Id, brokerType: string, syncMode: string)
      ensures this.userId == userId && this.brokerType == brokerType && this.syncMode == syncMode
      ensures syncEnabled && isActive && lastSyncedAt.None? && lastSyncError.None? && !needsReauth
    {
      this.userId := userId;
      this.brokerType := brokerType;
      this.syncEnabled := true;
      this.isActive := true;
      this.syncMode := syncMode;
      this.lastSyncedAt := None;
      this.lastSyncError := None;
      this.needsReauth := false;
    }
  }

  /** `sync_account(account)` at time `now`, where `fetched` is what the
      provider's `get_positions` returned or the message it raised. */
  method SyncAccount(repo: HoldingRepository, account: LinkedAccount, fetched: Result<seq<BrokerPosition>>, now: int)
    returns (result: SyncResult)
    requires repo.Valid()
    modifies repo, account
    ensures repo.Valid()
    ensures account.brokerType != PlaidBroker ==>
              result == Failure("Unsupported broker type: " + account.brokerType, now)
              && repo.rows == old(repo.rows) && unchanged(account)
    ensures account.brokerType == PlaidBroker && !account.syncEnabled ==>
              result == Failure("Sync disabled for this account", now)
              && repo.rows == old(repo.rows) && unchanged(account)
    ensures account.brokerType == PlaidBroker && account.syncEnabled && fetched.Err? ==>
              result == Failure(fetched.error, now) && repo.rows == old(repo.rows)
              && account.lastSyncError == Some(fetched.error)
              && account.lastSyncedAt == old(account.lastSyncedAt) && account.needsReauth == old(account.needsReauth)
    ensures account.brokerType == PlaidBroker && account.syncEnabled && fetched.Ok? ==>
              result.positionsFetched == |fetched.value|
              && result.created + result.updated + result.skipped + |result.errors| == |fetched.value|
              && (result.success <==> result.errors == [])
              && account.lastSyncedAt == Some(now) && account.lastSyncError.None? && !account.needsReauth
              && result.positionsSynced == result.created + result.updated && result.syncedAt == now
              && (account.syncMode != UpsertMode ==> result.updated == 0 && result.success)
              && SyncApplied(old(repo.rows), old(repo.nextId), repo.rows, account.userId, fetched.value,
                             account.syncMode)
    ensures account.userId == old(account.userId) && account.brokerType == old(account.brokerType)
            && account.syncEnabled == old(account.syncEnabled) && account.isActive == old(account.isActive)
            && account.syncMode == old(account.syncMode)
  {
    if account.brokerType != PlaidBroker {
      return Failure("Unsupported broker type: " + account.brokerType, now);
    }
    if !account.syncEnabled {
      return Failure("Sync disabled for this account", now);
    }
    if fetched.Err? {
      account.lastSyncError := Some(fetched.error);
      return Failure(fetched.error, now);
    }
    result := SyncPositions(repo, account.userId, fetched.value, account.syncMode, now);
    account.lastSyncedAt := Some(now);
    account.lastSyncError := None;
    account.needsReauth := false;
  }

  /** `unlink_account(account)`: deactivates the account and keeps it. */
  method UnlinkAccount(account: LinkedAccount) returns (ok: bool)
    modifies account
    ensures ok && !account.isActive && !account.syncEnabled
    ensures account.userId == old(account.userId) && account.brokerType == old(account.brokerType)
            && account.syncMode == old(account.syncMode) && account.lastSyncedAt == old(account.lastSyncedAt)
            && account.lastSyncError == old(account.lastSyncError) && account.needsReauth == old(account.needsReauth)
  {
    account.isActive := false;
    account.syncEnabled := false;
    ok := true;
  }

  /** `check_account_status(account)`, where `tokenValid` is the provider's
      verdict on the access token: false without a provider; otherwise the
      verdict, and an invalid token marks the account for re-authorisation. */
  method CheckAccountStatus(account: LinkedAccount, tokenValid: bool) returns (valid: bool)
    modifies account
    ensures valid <==> account.brokerType == PlaidBroker && tokenValid
    ensures account.needsReauth == (old(account.needsReauth) || (account.brokerType == PlaidBroker && !tokenValid))
    ensures account.userId == old(account.userId) && account.brokerType == old(account.brokerType)
            && account.syncEnabled == old(account.syncEnabled) && account.isActive == old(account.isActive)
            && account.syncMode == old(account.syncMode) && account.lastSyncedAt == old(account.lastSyncedAt)
            && account.lastSyncError == old(account.lastSyncError)
  {
    if account.brokerType != PlaidBroker {
      return false;
    }
    if !tokenValid {
      account.needsReauth := true;
    }
    valid := tokenValid;
  }
}
