/**
 Interactive Brokers execution (`pipeline/ib_execution.rs`): the futures
 contract for a local symbol, and the order manager that allocates order
 ids and links a market entry to its stop and profit children. The
 client calls themselves are left to the broker; a placement outcome is
 a parameter.
 */
module IbExecution {
  import opened Base
  import opened Text
  import opened Market
  import Calendar
  import Symbols

  datatype SecurityType = Future | Stock

  datatype Contract = Contract(
    symbol: string, securityType: SecurityType, exchange: string,
    currency: string, localSymbol: string, primaryExchange: string)

  /** The micro contracts the code recognises, by the first three letters of the local symbol. */
  predicate IsMicro(localSymbol: string)
  {
    IsPrefix("MNQ", localSymbol) || IsPrefix("MES", localSymbol)
    || IsPrefix("M2K", localSymbol) || IsPrefix("MYM", localSymbol)
  }

  /**
   `create_futures_contract`: a CME future in USD under the local symbol,
   whose symbol is the contract root: `M` and the two letters after it
   for a micro, the first two letters otherwise. A local symbol too short
   to slice (under two characters) makes the code panic: `None` here.
   */
  function CreateFuturesContract(localSymbol: string): (r: Option<Contract>)
    ensures r.None? <==> |localSymbol| < 2
    ensures r.Some? ==>
      r.value.localSymbol == localSymbol && r.value.securityType == Future
      && r.value.exchange == "CME" && r.value.primaryExchange == "CME" && r.value.currency == "USD"
    ensures r.Some? ==> IsPrefix(r.value.symbol, localSymbol)
    ensures r.Some? ==> |r.value.symbol| == (if IsMicro(localSymbol) then 3 else 2)
  {
    var micro := IsMicro(localSymbol);
    if |localSymbol| < (if micro then 3 else 2) then
      assert !micro;
      None
    else
      var base := if micro then localSymbol[1..3] else localSymbol[0..2];
      var symbol := if micro then "M" + base else base;
      assert micro ==> localSymbol[0] == 'M';
      assert symbol == localSymbol[..|symbol|];
      Some(Contract(symbol, Future, "CME", "USD", localSymbol, "CME"))
  }

  /** `create_nq_contract`: the default March 2026 E-mini Nasdaq contract. */
  function CreateNqContract(): (r: Contract)
    ensures r.symbol == "NQ" && r.localSymbol == "NQH6"
  {
    ContractExamples();
    CreateFuturesContract("NQH6").value
  }

  /** A symbol whose first two letters match none of the micro prefixes is not a micro. */
  lemma NotMicro(s: string)
    requires |s| >= 2
    requires s[0] != 'M' || (s[1] != 'N' && s[1] != 'E' && s[1] != '2' && s[1] != 'Y')
    ensures !IsMicro(s)
  {
    if |s| >= 3 {
      assert s[..3][0] == s[0] && s[..3][1] == s[1];
    }
  }

  lemma ContractExamples()
    ensures CreateFuturesContract("NQH6") == Some(Contract("NQ", Future, "CME", "USD", "NQH6", "CME"))
    ensures CreateFuturesContract("ESH6").value.symbol == "ES"
    ensures CreateFuturesContract("N").None?
  {
    NotMicro("NQH6");
    NotMicro("ESH6");
    assert "NQH6"[..2] == "NQ" && "ESH6"[..2] == "ES";
  }

  lemma MicroExamples()
    ensures CreateFuturesContract("MNQH6").value.symbol == "MNQ"
    ensures CreateFuturesContract("MESZ5").value.symbol == "MES"
    ensures CreateFuturesContract("M2KH6").value.symbol == "M2K"
  {
    assert IsMicro("MNQH6") && IsMicro("MESZ5") && IsMicro("M2KH6");
    assert "MNQH6"[..3] == "MNQ" && "MESZ5"[..3] == "MES" && "M2KH6"[..3] == "M2K";
  }

  /** A micro outside the four listed (micro gold, `MGC`) is read as an E-mini with root `MG`. */
  lemma UnlistedMicroExample()
    ensures CreateFuturesContract("MGCZ5").value.symbol == "MG"
  {
    NotMicro("MGCZ5");
    assert "MGCZ5"[..2] == "MG";
  }

  /** The contract built from a front-month local symbol trades under its base symbol. */
  lemma ContractOfFrontMonth(base: string, d: Calendar.Date)
    requires Calendar.Valid(d)
    requires base == "NQ" || base == "ES" || base == "MNQ" || base == "MES"
    ensures CreateFuturesContract(Symbols.FrontMonthContract(base, d))
            == Some(Contract(base, Future, "CME", "USD", Symbols.FrontMonthContract(base, d), "CME"))
  {
    var s := Symbols.FrontMonthContract(base, d);
    assert s[..|base|] == base;
    if |base| == 3 {
      assert s[1..3] == base[1..3];
      assert IsPrefix(base, s);
    } else {
      assert s[0..2] == base;
      NotMicro(s);
    }
  }

  // ---------------------------------------------------------------------
  // Orders

  datatype OrderKind = MarketOrder | StopOrder(stopPrice: real) | LimitOrder(limitPrice: real)

  /** An order as placed, its action a `Side`; a parent order carries no `parent_id`. */
  datatype IbOrder = IbOrder(
    orderId: int, action: Side, quantity: real, kind: OrderKind,
    parentId: Option<int>, transmit: bool)

  datatype IbOrderManager = IbOrderManager(
    contract: Contract, nextOrderId: int,
    parentId: Option<int>, stopId: Option<int>, profitId: Option<int>)

  function NewOrderManager(contract: Contract): (m: IbOrderManager)
    ensures m.nextOrderId == 1 && m.parentId.None? && m.stopId.None? && m.profitId.None?
    ensures m.contract == contract
  {
    IbOrderManager(contract, 1, None, None, None)
  }

  /** `get_next_order_id`: the current id, and the counter moved past it. */
  function GetNextOrderId(m: IbOrderManager): (r: (IbOrderManager, int))
    ensures r.1 == m.nextOrderId && r.0.nextOrderId == r.1 + 1
    ensures r.0 == m.(nextOrderId := r.0.nextOrderId)
  {
    (m.(nextOrderId := m.nextOrderId + 1), m.nextOrderId)
  }

  /** The ids of `k` successive calls, with the manager after them. */
  function IssueIds(m: IbOrderManager, k: nat): (r: (IbOrderManager, seq<int>))
    ensures |r.1| == k && r.0 == m.(nextOrderId := m.nextOrderId + k)
    decreases k
  {
    if k == 0 then (m, [])
    else
      var (m1, ids) := IssueIds(m, k - 1);
      var (m2, id) := GetNextOrderId(m1);
      (m2, ids + [id])
  }

  /** Successive ids are consecutive, so strictly increasing and never reused by this manager. */
  lemma {:induction false} IssuedIdsConsecutive(m: IbOrderManager, k: nat)
    ensures forall i :: 0 <= i < k ==> IssueIds(m, k).1[i] == m.nextOrderId + i
    ensures forall i, j :: 0 <= i < j < k ==> IssueIds(m, k).1[i] < IssueIds(m, k).1[j]
    decreases k
  {
    if k > 0 {
      IssuedIdsConsecutive(m, k - 1);
      var (m1, prev) := IssueIds(m, k - 1);
      var ids := IssueIds(m, k).1;
      assert ids == prev + [GetNextOrderId(m1).1];
      forall i | 0 <= i < k
        ensures ids[i] == m.nextOrderId + i
      {
        if i < k - 1 {
          assert ids[i] == prev[i];
        }
      }
    }
  }

  function Reverse(a: Side): (r: Side)
    ensures r != a
  {
    if a == Buy then Sell else Buy
  }

  /** The entry side: buy to go long, sell to go short. */
  function EntryAction(d: Direction): (r: Side)
    ensures r == Buy <==> d == Long
  {
    if d == Long then Buy else Sell
  }

  /**
   The three orders of a bracket, from the manager's next id: a market
   entry held back, a protective stop and a profit limit on the reverse
   side, both children of the entry; only the last transmits, releasing
   all three together.
   */
  function Bracket(first: int, direction: Direction, contracts: int, stop: real, target: real): (r: seq<IbOrder>)
    ensures |r| == 3
    ensures forall i :: 0 <= i < 3 ==> r[i].orderId == first + i && r[i].quantity == contracts as real
    ensures forall i :: 0 <= i < 3 ==> (r[i].transmit <==> i == 2)
    ensures r[0].action == EntryAction(direction) && r[0].kind == MarketOrder && r[0].parentId.None?
    ensures forall i :: 1 <= i < 3 ==> r[i].parentId == Some(r[0].orderId) && r[i].action == Reverse(r[0].action)
    ensures r[1].kind == StopOrder(stop) && r[2].kind == LimitOrder(target)
  {
    var action := EntryAction(direction);
    var qty := contracts as real;
    [IbOrder(first, action, qty, MarketOrder, None, false),
     IbOrder(first + 1, Reverse(action), qty, StopOrder(stop), Some(first), false),
     IbOrder(first + 2, Reverse(action), qty, LimitOrder(target), Some(first), true)]
  }

  /**
   `submit_bracket_order`: three fresh ids, the orders placed in turn
   until the broker refuses one (`accepted` is how many it takes before
   that), and the three ids tracked only when all were placed.
   */
  function SubmitBracket(m: IbOrderManager, direction: Direction, contracts: int, stop: real, target: real,
                         accepted: nat): (r: (IbOrderManager, seq<IbOrder>, Result<()>))
    ensures r.0.nextOrderId == m.nextOrderId + 3 && r.0.contract == m.contract
    ensures r.1 == Bracket(m.nextOrderId, direction, contracts, stop, target)[..MinNat(accepted + 1, 3)]
    ensures r.2.Ok? <==> accepted >= 3
    ensures r.2.Ok? ==>
      r.0.parentId == Some(m.nextOrderId) && r.0.stopId == Some(m.nextOrderId + 1) && r.0.profitId == Some(m.nextOrderId + 2)
    ensures r.2.Err? ==> r.0 == m.(nextOrderId := m.nextOrderId + 3)
  {
    var (m1, parent) := GetNextOrderId(m);
    var (m2, stopId) := GetNextOrderId(m1);
    var (m3, profitId) := GetNextOrderId(m2);
    var orders := Bracket(parent, direction, contracts, stop, target);
    if accepted < 3 then (m3, orders[..accepted + 1], Err("order placement failed"))
    else (m3.(parentId := Some(parent), stopId := Some(stopId), profitId := Some(profitId)), orders, Ok(()))
  }

  /**
   `modify_stop`: nothing without a tracked stop; otherwise the stop order
   re-placed under its own id at the new price on the reverse side,
   linked to the tracked parent if there is one, and transmitted.
   */
  function ModifyStop(m: IbOrderManager, newStop: real, contracts: int, direction: Direction): (r: Option<IbOrder>)
    ensures r.None? <==> m.stopId.None?
    ensures r.Some? ==>
      r.value.orderId == m.stopId.value && r.value.kind == StopOrder(newStop) && r.value.transmit
      && r.value.action == Reverse(EntryAction(direction)) && r.value.parentId == m.parentId
      && r.value.quantity == contracts as real
  {
    match m.stopId
    case None => None
    case Some(id) => Some(IbOrder(id, Reverse(EntryAction(direction)), contracts as real, StopOrder(newStop), m.parentId, true))
  }

  /** After a complete bracket, a stop move re-places the bracket's own stop leg at the new price. */
  lemma ModifyStopAfterBracket(m: IbOrderManager, direction: Direction, contracts: int, stop: real, target: real,
                               accepted: nat, newStop: real)
    requires accepted >= 3
    ensures var (m1, orders, _) := SubmitBracket(m, direction, contracts, stop, target, accepted);
      ModifyStop(m1, newStop, contracts, direction) == Some(orders[1].(kind := StopOrder(newStop), transmit := true))
  {
  }

  /** `clear_orders`: no order is tracked. */
  function ClearOrders(m: IbOrderManager): (r: IbOrderManager)
    ensures r.parentId.None? && r.stopId.None? && r.profitId.None?
    ensures r.nextOrderId == m.nextOrderId && r.contract == m.contract
  {
    m.(parentId := None, stopId := None, profitId := None)
  }

  function Tracked(id: Option<int>): seq<int>
  {
    if id.Some? then [id.value] else []
  }

  /**
   `flatten_all`: the tracked stop, then profit, then parent are
   cancelled (refusals ignored), and nothing is tracked afterwards.
   */
  function FlattenAll(m: IbOrderManager): (r: (IbOrderManager, seq<int>))
    ensures r.0 == ClearOrders(m)
    ensures |r.1| <= 3
    ensures forall i :: 0 <= i < |r.1| ==> Some(r.1[i]) == m.stopId || Some(r.1[i]) == m.profitId || Some(r.1[i]) == m.parentId
    ensures m.stopId.Some? && m.profitId.Some? && m.parentId.Some? ==> r.1 == [m.stopId.value, m.profitId.value, m.parentId.value]
    ensures m.stopId.None? && m.profitId.None? && m.parentId.None? ==> r.1 == []
  {
    (ClearOrders(m), Tracked(m.stopId) + Tracked(m.profitId) + Tracked(m.parentId))
  }

  /** After a complete bracket, flattening cancels exactly its three orders, children first. */
  lemma FlattenCancelsBracket(m: IbOrderManager, direction: Direction, contracts: int, stop: real, target: real, accepted: nat)
    requires accepted >= 3
    ensures var (m1, orders, _) := SubmitBracket(m, direction, contracts, stop, target, accepted);
      FlattenAll(m1).1 == [orders[1].orderId, orders[2].orderId, orders[0].orderId]
      && ModifyStop(FlattenAll(m1).0, stop, contracts, direction).None?
  {
  }
}
