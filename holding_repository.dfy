/** The holdings table and its repository: lookups by id and by symbol,
    creation, validated partial update and deletion.  Symbols are stored
    and looked up upper-cased.  Row ids are handed out from a counter. */
module HoldingStore {
  import opened Common
  import opened Records

  /** `get_all(user_id)`: the user's holdings, in table order. */
  function UserHoldings(table: seq<Holding>, userId: Id): seq<Holding> {
    if table == [] then []
    else
      var head := if table[0].userId == userId then [table[0]] else [];
      head + UserHoldings(table[1..], userId)
  }

  /** The query returns exactly the user's holdings. */
  lemma {:induction false} UserHoldingsMembers(table: seq<Holding>, userId: Id)
    ensures forall h :: h in UserHoldings(table, userId) <==> h in table && h.userId == userId
  {
    if table != [] {
      UserHoldingsMembers(table[1..], userId);
      assert table == [table[0]] + table[1..];
    }
  }

  /** `get_by_id(holding_id)` */
  function FindHolding(rows: seq<Holding>, id: Id): (r: Option<Holding>)
    ensures r.Some? ==> r.value in rows && r.value.id == id
    ensures r.None? <==> forall i :: 0 <= i < |rows| ==> rows[i].id != id
  {
    match FirstIndex((h: Holding) => h.id == id, rows)
    case Some(i) => Some(rows[i])
    case None => None
  }

  /** `get_by_symbol(symbol, user_id)`: the first of the user's holdings of
      the upper-cased symbol. */
  function HoldingBySymbol(rows: seq<Holding>, symbol: string, userId: Id): (r: Option<Holding>)
    ensures r.Some? ==> r.value in rows && r.value.userId == userId && r.value.symbol == Upper(symbol)
    ensures r.None? <==>
      forall i :: 0 <= i < |rows| ==> !(rows[i].userId == userId && rows[i].symbol == Upper(symbol))
  {
    match FirstIndex((h: Holding) => h.userId == userId && h.symbol == Upper(symbol), rows)
    case Some(i) => Some(rows[i])
    case None => None
  }

  /** Symbol lookup ignores case. */
  lemma HoldingBySymbolIgnoresCase(rows: seq<Holding>, symbol: string, userId: Id)
    ensures HoldingBySymbol(rows, Lower(symbol), userId) == HoldingBySymbol(rows, symbol, userId)
    ensures HoldingBySymbol(rows, Upper(symbol), userId) == HoldingBySymbol(rows, symbol, userId)
  {
    UpperOfLower(symbol);
    UpperIdempotent(symbol);
  }

  /** A holding with the given fields replaced (`None` keeps a field). */
  function Updated(h: Holding, shares: Option<real>, costBasis: Option<real>, purchaseDate: Option<int>)
    : Holding
  {
    h.(shares := shares.GetOr(h.shares),
       costBasis := costBasis.GetOr(h.costBasis),
       purchaseDate := if purchaseDate.Some? then purchaseDate else h.purchaseDate)
  }

  /** An update keeps the row's identity, owner and symbol, sets exactly the
      given fields, and applying it twice is applying it once. */
  lemma UpdatedFields(h: Holding, shares: Option<real>, costBasis: Option<real>, purchaseDate: Option<int>)
    ensures var u := Updated(h, shares, costBasis, purchaseDate);
      u.id == h.id && u.userId == h.userId && u.symbol == h.symbol
      && (shares.Some? ==> u.shares == shares.value) && (shares.None? ==> u.shares == h.shares)
      && (costBasis.Some? ==> u.costBasis == costBasis.value)
      && (costBasis.None? ==> u.costBasis == h.costBasis)
      && (purchaseDate.Some? ==> u.purchaseDate == purchaseDate)
      && (purchaseDate.None? ==> u.purchaseDate == h.purchaseDate)
      && Updated(u, shares, costBasis, purchaseDate) == u
    ensures Updated(h, None, None, None) == h
  {
  }

  /** The validation that `update` runs before assigning anything. */
  function UpdateCheck(shares: Option<real>, costBasis: Option<real>): (r: Option<string>)
    ensures r.None? <==> (shares.None? || shares.value > 0.0) && (costBasis.None? || costBasis.value > 0.0)
  {
    if shares.Some? && shares.value <= 0.0 then Some("Shares must be positive")
    else if costBasis.Some? && costBasis.value <= 0.0 then Some("Cost basis must be positive")
    else None
  }

  /** `HoldingRepository` over its table. */
  class HoldingRepository {
    var rows: seq<Holding>
    var nextId: nat

    ghost predicate Valid()
      reads this
    {
      TableValid((h: Holding) => h.id, rows, nextId)
    }

    constructor()
      ensures Valid() && rows == [] && nextId == 0
    {
      rows := [];
      nextId := 0;
    }

    /** `create(...)`: stores the upper-cased symbol; shares and cost basis
        are not validated. */
    method Create(symbol: string, shares: real, costBasis: real, purchaseDate: Option<int>, userId: Id)
      returns (h: Holding)
      requires Valid()
      modifies this
      ensures Valid()
      ensures h == Holding(old(nextId), userId, Upper(symbol), shares, costBasis, purchaseDate)
      ensures rows == old(rows) + [h] && nextId == old(nextId) + 1
    {
      h := Holding(nextId, userId, Upper(symbol), shares, costBasis, purchaseDate);
      AppendValid((h: Holding) => h.id, rows, nextId, h);
      rows := rows + [h];
      nextId := nextId + 1;
    }

    /** `update(...)`: `Ok(None)` for an unknown id, `Err` when a given
        share count or cost basis is not positive (nothing assigned), else the
        holding with the given fields replaced and nothing else changed. */
    method Update(id: Id, shares: Option<real>, costBasis: Option<real>, purchaseDate: Option<int>)
      returns (r: Result<Option<Holding>>)
      requires Valid()
      modifies this
      ensures Valid() && nextId == old(nextId) && |rows| == |old(rows)|
      ensures FindHolding(old(rows), id).None? ==> r == Ok(None) && rows == old(rows)
      ensures FindHolding(old(rows), id).Some? && UpdateCheck(shares, costBasis).Some? ==>
                r == Err(UpdateCheck(shares, costBasis).value) && rows == old(rows)
      ensures FindHolding(old(rows), id).Some? && UpdateCheck(shares, costBasis).None? ==>
                r == Ok(Some(Updated(FindHolding(old(rows), id).value, shares, costBasis, purchaseDate)))
      ensures forall i :: 0 <= i < |rows| ==>
                rows[i] == if old(rows)[i].id == id && r.Ok? then Updated(old(rows)[i], shares, costBasis, purchaseDate)
                           else old(rows)[i]
    {
      var i := FirstIndex((h: Holding) => h.id == id, rows);
      if i.None? {
        return Ok(None);
      }
      var check := UpdateCheck(shares, costBasis);
      if check.Some? {
        return Err(check.value);
      }
      var k := i.value;
      var h := Updated(rows[k], shares, costBasis, purchaseDate);
      ReplaceValid((h: Holding) => h.id, rows, nextId, k, h);
      rows := rows[k := h];
      r := Ok(Some(h));
    }

    /** `delete(holding_id, user_id)`: fails and keeps the table for an
        unknown id or, when an owner is given, a holding of another user. */
    method Delete(id: Id, owner: Option<Id>) returns (deleted: bool)
      requires Valid()
      modifies this
      ensures Valid() && nextId == old(nextId)
      ensures deleted <==> FindHolding(old(rows), id).Some?
                           && (owner.None? || FindHolding(old(rows), id).value.userId == owner.value)
      ensures !deleted ==> rows == old(rows)
      ensures deleted ==> |rows| == |old(rows)| - 1
                          && forall h :: h in rows <==> h in old(rows) && h.id != id
    {
      var i := FirstIndex((h: Holding) => h.id == id, rows);
      if i.None? {
        return false;
      }
      var k := i.value;
      if owner.Some? && rows[k].userId != owner.value {
        return false;
      }
      RemoveValid((h: Holding) => h.id, rows, nextId, k);
      rows := RemoveAt(rows, k);
      deleted := true;
    }

    /** `delete_by_symbol(symbol, user_id)`: removes the holding that
        `get_by_symbol` finds, and only that one. */
    method DeleteBySymbol(symbol: string, userId: Id) returns (deleted: bool)
      requires Valid()
      modifies this
      ensures Valid() && nextId == old(nextId)
      ensures deleted <==> HoldingBySymbol(old(rows), symbol, userId).Some?
      ensures !deleted ==> rows == old(rows)
      ensures deleted ==> multiset(rows) == multiset(old(rows)) - multiset{HoldingBySymbol(old(rows), symbol, userId).value}
    {
      var i := FirstIndex((h: Holding) => h.userId == userId && h.symbol == Upper(symbol), rows);
      if i.None? {
        return false;
      }
      RemoveValid((h: Holding) => h.id, rows, nextId, i.value);
      rows := RemoveAt(rows, i.value);
      deleted := true;
    }
  }
}
