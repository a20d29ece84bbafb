/**
 The position manager of the execution layer (`execution/position.rs`):
 net position and average entry, realized P&L per exit, the running and
 peak balance with the day's drawdown, and a bounded trade history.
 */
module Positions {
  import opened Base
  import opened Orders

  datatype TradeRecord = TradeRecord(entryPrice: real, exitPrice: real, side: OrderSide, quantity: int,
                                     pnlPoints: real, lvnLevel: real)

  /** The day's summary; the date label the source stamps from the local clock is not modelled. */
  datatype DailyPnl = DailyPnl(grossPnl: real, tradeCount: int, wins: int, losses: int, largestWin: real,
                               largestLoss: real, maxDrawdown: real, peakBalance: real)

  const EmptyDay := DailyPnl(0.0, 0, 0, 0, 0.0, 0.0, 0.0, 0.0)

  const MaxHistory: nat := 1000

  datatype Manager = Manager(
    symbol: string,
    netPosition: int,
    avgEntryPrice: Option<real>,
    brackets: seq<Bracket>,
    history: seq<TradeRecord>,
    daily: DailyPnl,
    runningBalance: real,
    startingBalance: real,
    pointValue: real)

  /** `PositionManager::new`: flat, nothing tracked, the balance at its start. */
  function NewManager(symbol: string, startingBalance: real, pointValue: real): (m: Manager)
    ensures m.netPosition == 0 && m.avgEntryPrice == None && m.brackets == [] && m.history == []
    ensures m.runningBalance == m.startingBalance == startingBalance && m.daily == EmptyDay
  {
    Manager(symbol, 0, None, [], [], EmptyDay, startingBalance, startingBalance, pointValue)
  }

  predicate IsFlat(m: Manager)
  {
    m.netPosition == 0
  }

  /** `drawdown`: how far the balance is below the starting balance, never negative. */
  function Drawdown(m: Manager): (d: real)
    ensures d >= 0.0
    ensures d == 0.0 <==> m.runningBalance >= m.startingBalance
    ensures d > 0.0 ==> m.runningBalance + d == m.startingBalance
  {
    if m.runningBalance < m.startingBalance then m.startingBalance - m.runningBalance else 0.0
  }

  function AddBracket(m: Manager, b: Bracket): (r: Manager)
    ensures r.brackets == m.brackets + [b]
  {
    m.(brackets := m.brackets + [b])
  }

  /** `iter().find(|b| b.id == id)`: the first bracket with the id. */
  function FindBracket(bs: seq<Bracket>, id: nat): (r: Option<nat>)
    ensures r.Some? ==> r.value < |bs| && bs[r.value].id == id && forall j :: 0 <= j < r.value ==> bs[j].id != id
    ensures r.None? <==> forall j :: 0 <= j < |bs| ==> bs[j].id != id
  {
    if |bs| == 0 then None
    else if bs[0].id == id then Some(0)
    else match FindBracket(bs[1..], id)
      case None => None
      case Some(i) => Some(i + 1)
  }

  /** Rust `i32::signum`. */
  function Signum(x: int): (s: int)
    ensures s == 0 <==> x == 0
    ensures s == 1 <==> x > 0
    ensures s == -1 <==> x < 0
  {
    if x > 0 then 1 else if x < 0 then -1 else 0
  }

  function SignedQuantity(side: OrderSide, quantity: int): int
  {
    if side == Buy then quantity else -quantity
  }

  /**
   The average entry after a fill: the fill price from flat, the
   quantity-weighted mean when adding in the same direction, unchanged
   when the fill reduces or reverses the position. A zero divisor gives
   NaN in the source; the model leaves the average unset there.
   */
  function EntryAverage(net: int, avg: Option<real>, price: real, quantity: int, side: OrderSide): (r: Option<real>)
    ensures net == 0 ==> r == Some(price)
    ensures net != 0 && Signum(net) != Signum(SignedQuantity(side, quantity)) ==> r == avg
    ensures net != 0 && Signum(net) == Signum(SignedQuantity(side, quantity)) && IntAbs(net) + quantity != 0 ==>
              (r.Some? && r.value * (IntAbs(net) + quantity) as real
                          == (if avg.Some? then avg.value else price) * IntAbs(net) as real + price * quantity as real)
  {
    if net == 0 then Some(price)
    else if Signum(net) == Signum(SignedQuantity(side, quantity)) then
      var oldValue := (if avg.Some? then avg.value else price) * IntAbs(net) as real;
      var d := IntAbs(net) + quantity;
      if d != 0 then Some((oldValue + price * quantity as real) / d as real) else None
    else avg
  }

  /** `record_entry_fill`: the signed quantity is added to the position, and the bracket learns its entry price. */
  function RecordEntryFill(m: Manager, id: nat, price: real, quantity: int, side: OrderSide): (r: Manager)
    ensures r.netPosition == m.netPosition + SignedQuantity(side, quantity)
    ensures r.avgEntryPrice == EntryAverage(m.netPosition, m.avgEntryPrice, price, quantity, side)
    ensures |r.brackets| == |m.brackets|
    ensures forall j :: 0 <= j < |m.brackets| ==>
              r.brackets[j] == (if FindBracket(m.brackets, id) == Some(j) then m.brackets[j].(entryPrice := Some(price)) else m.brackets[j])
    ensures r == m.(netPosition := r.netPosition, avgEntryPrice := r.avgEntryPrice, brackets := r.brackets)
  {
    var brackets :=
      match FindBracket(m.brackets, id)
      case None => m.brackets
      case Some(i) => m.brackets[i := m.brackets[i].(entryPrice := Some(price))];
    m.(avgEntryPrice := EntryAverage(m.netPosition, m.avgEntryPrice, price, quantity, side),
       netPosition := m.netPosition + SignedQuantity(side, quantity),
       brackets := brackets)
  }

  /** The day's figures after an exit of the given P&L at the given new balance. */
  function DayAfterExit(d: DailyPnl, pnl: real, balance: real): (r: DailyPnl)
    ensures r.grossPnl == d.grossPnl + pnl && r.tradeCount == d.tradeCount + 1
    ensures pnl > 0.0 ==> r.wins == d.wins + 1 && r.losses == d.losses && r.largestWin == Max(d.largestWin, pnl)
    ensures pnl <= 0.0 ==> r.losses == d.losses + 1 && r.wins == d.wins && r.largestLoss == Min(d.largestLoss, pnl)
    ensures r.peakBalance == Max(d.peakBalance, balance)
    ensures r.maxDrawdown == Max(d.maxDrawdown, r.peakBalance - balance)
  {
    var counted := d.(grossPnl := d.grossPnl + pnl, tradeCount := d.tradeCount + 1);
    var sided :=
      if pnl > 0.0 then counted.(wins := d.wins + 1, largestWin := if pnl > d.largestWin then pnl else d.largestWin)
      else counted.(losses := d.losses + 1, largestLoss := if pnl < d.largestLoss then pnl else d.largestLoss);
    var peak := if balance > d.peakBalance then balance else d.peakBalance;
    var dd := peak - balance;
    sided.(peakBalance := peak, maxDrawdown := if dd > d.maxDrawdown then dd else d.maxDrawdown)
  }

  /** `push_back` then `pop_front` past the cap. */
  function PushCapped(h: seq<TradeRecord>, rec: TradeRecord): (r: seq<TradeRecord>)
    ensures |h| <= MaxHistory ==> |r| <= MaxHistory
    ensures 0 < |r| <= |h| + 1 && r[|r| - 1] == rec
    ensures r == (h + [rec])[|h| + 1 - |r|..]
  {
    var pushed := h + [rec];
    if |pushed| > MaxHistory then pushed[1..] else pushed
  }

  /**
   `record_exit_fill`: None, changing nothing, when the bracket is missing
   or has no entry; otherwise the trade's P&L is the bracket's open P&L at
   the fill, the balance moves by it in dollars, the day counts one more
   win or loss, the position gives back the bracket's signed quantity and
   the bracket is completed.
   */
  function RecordExitFill(m: Manager, id: nat, price: real): (r: (Manager, Option<TradeRecord>))
    ensures r.1.None? <==> FindBracket(m.brackets, id).None? || m.brackets[FindBracket(m.brackets, id).value].entryPrice.None?
    ensures r.1.None? ==> r.0 == m
    ensures r.1.Some? ==>
              var b := m.brackets[FindBracket(m.brackets, id).value];
              var rec := r.1.value;
              Some(rec.pnlPoints) == UnrealizedPnl(b, price)
              && rec.entryPrice == b.entryPrice.value && rec.exitPrice == price && rec.side == b.entry.side
              && r.0.runningBalance == m.runningBalance + rec.pnlPoints * m.pointValue
              && r.0.daily == DayAfterExit(m.daily, rec.pnlPoints, r.0.runningBalance)
              && r.0.netPosition == m.netPosition - SignedQuantity(b.entry.side, b.entry.quantity)
              && r.0.avgEntryPrice == (if r.0.netPosition == 0 then None else m.avgEntryPrice)
              && r.0.history == PushCapped(m.history, rec)
              && r.0.brackets == m.brackets[FindBracket(m.brackets, id).value := CompleteAt(b, price)]
    ensures r.0.startingBalance == m.startingBalance && r.0.pointValue == m.pointValue
  {
    match FindBracket(m.brackets, id)
    case None => (m, None)
    case Some(i) =>
      var b := m.brackets[i];
      if b.entryPrice.None? then (m, None)
      else
        var entry := b.entryPrice.value;
        var q := b.entry.quantity;
        var pnl := if b.entry.side == Buy then (price - entry) * q as real else (entry - price) * q as real;
        var u := UnrealizedPnl(b, price);
        assert u.Some? && u.value == pnl;
        var balance := m.runningBalance + pnl * m.pointValue;
        var net := m.netPosition - SignedQuantity(b.entry.side, q);
        var rec := TradeRecord(entry, price, b.entry.side, q, pnl, b.lvnLevel);
        (m.(runningBalance := balance,
            daily := DayAfterExit(m.daily, pnl, balance),
            netPosition := net,
            avgEntryPrice := if net == 0 then None else m.avgEntryPrice,
            history := PushCapped(m.history, rec),
            brackets := m.brackets[i := CompleteAt(b, price)]),
         Some(rec))
  }

  /**
   What every operation keeps: each counted trade is a win or a loss, the
   peak balance never trails the running balance, the drawdown is not
   negative and the history holds at most 1000 trades.
   */
  predicate Valid(m: Manager)
  {
    m.daily.wins + m.daily.losses == m.daily.tradeCount && m.daily.wins >= 0 && m.daily.losses >= 0
    && m.daily.maxDrawdown >= 0.0 && |m.history| <= MaxHistory
  }

  /** After any exit the peak is at or above the balance, and the day's drawdown has not decreased. */
  lemma ExitKeepsInvariant(m: Manager, id: nat, price: real)
    requires Valid(m)
    ensures var r := RecordExitFill(m, id, price);
            Valid(r.0)
            && r.0.daily.maxDrawdown >= m.daily.maxDrawdown
            && (r.1.Some? ==> r.0.daily.peakBalance >= r.0.runningBalance && r.0.daily.maxDrawdown >= r.0.daily.peakBalance - r.0.runningBalance)
  {
  }

  lemma EntryKeepsInvariant(m: Manager, id: nat, price: real, quantity: int, side: OrderSide)
    requires Valid(m)
    ensures Valid(RecordEntryFill(m, id, price, quantity, side))
  {
  }

  /** `cleanup_completed`: drops the completed and cancelled brackets, keeping the rest in order. */
  function CleanupCompleted(bs: seq<Bracket>): (r: seq<Bracket>)
    ensures forall b :: b in r <==> b in bs && b.state != BracketState.Complete && b.state != BracketState.Cancelled
    ensures |r| <= |bs|
  {
    if |bs| == 0 then []
    else
      var rest := CleanupCompleted(bs[1..]);
      assert forall b :: b in bs <==> b == bs[0] || b in bs[1..];
      if bs[0].state == BracketState.Complete || bs[0].state == BracketState.Cancelled then rest else [bs[0]] + rest
  }

  /** `unrealized_pnl` of the manager: the open P&L of every bracket that has an entry. */
  function OpenPnl(bs: seq<Bracket>, price: real): real
  {
    if |bs| == 0 then 0.0
    else (match UnrealizedPnl(bs[0], price) case Some(p) => p case None => 0.0) + OpenPnl(bs[1..], price)
  }

  /** Brackets without an entry add nothing to the open P&L. */
  lemma {:induction false} OpenPnlWithoutEntries(bs: seq<Bracket>, price: real)
    requires forall i :: 0 <= i < |bs| ==> bs[i].entryPrice.None?
    ensures OpenPnl(bs, price) == 0.0
  {
    if |bs| > 0 {
      OpenPnlWithoutEntries(bs[1..], price);
    }
  }

  /** `reset_daily`: a fresh day whose peak starts at the current balance. */
  function ResetDaily(m: Manager): (r: Manager)
    ensures r.daily.peakBalance == m.runningBalance
    ensures r.daily.tradeCount == 0 && r.daily.wins == 0 && r.daily.losses == 0 && r.daily.grossPnl == 0.0
    ensures r.daily.maxDrawdown == 0.0
    ensures r == m.(daily := r.daily)
  {
    m.(daily := EmptyDay.(peakBalance := m.runningBalance))
  }

  lemma ResetKeepsInvariant(m: Manager)
    requires Valid(m)
    ensures Valid(ResetDaily(m))
  {
  }

  /** `win_rate`: wins over trades, 0 before the first trade. */
  function WinRate(m: Manager): (r: real)
    requires Valid(m)
    ensures m.daily.tradeCount == 0 ==> r == 0.0
    ensures 0.0 <= r <= 1.0
  {
    if m.daily.tradeCount == 0 then 0.0 else m.daily.wins as real / m.daily.tradeCount as real
  }

  /** Filling a bracket's entry and then its exit gives back exactly the quantity taken on. */
  lemma EntryExitRoundTrip(m: Manager, id: nat, entryPrice: real, exitPrice: real)
    requires FindBracket(m.brackets, id).Some?
    ensures var b := m.brackets[FindBracket(m.brackets, id).value];
            var m1 := RecordEntryFill(m, id, entryPrice, b.entry.quantity, b.entry.side);
            var r := RecordExitFill(m1, id, exitPrice);
            r.1.Some? && r.0.netPosition == m.netPosition
            && r.1.value.pnlPoints == UnrealizedPnl(b.(entryPrice := Some(entryPrice)), exitPrice).value
  {
    var i := FindBracket(m.brackets, id).value;
    var b := m.brackets[i];
    var m1 := RecordEntryFill(m, id, entryPrice, b.entry.quantity, b.entry.side);
    assert m1.brackets[i] == b.(entryPrice := Some(entryPrice));
    assert FindBracket(m1.brackets, id) == Some(i) by {
      assert forall j :: 0 <= j < i ==> m1.brackets[j].id == m.brackets[j].id;
    }
  }

  /** The tests' long: entry 21505, exit 21515 on one NQ contract makes 10 points and $200, and ends flat with one win. */
  lemma PnlExample()
    ensures var m0 := AddBracket(NewManager("NQ.c.0", 50000.0, 20.0), NewLong(7, 8, "NQ.c.0", "CME", 1, 21500.0));
            var m1 := RecordEntryFill(m0, 7, 21505.0, 1, Buy);
            var r := RecordExitFill(m1, 7, 21515.0);
            m1.netPosition == 1 && r.1.Some? && r.1.value.pnlPoints == 10.0
            && r.0.runningBalance == 50200.0 && IsFlat(r.0) && r.0.daily.wins == 1
  {
    var m0 := AddBracket(NewManager("NQ.c.0", 50000.0, 20.0), NewLong(7, 8, "NQ.c.0", "CME", 1, 21500.0));
    assert FindBracket(m0.brackets, 7) == Some(0);
    var m1 := RecordEntryFill(m0, 7, 21505.0, 1, Buy);
    assert FindBracket(m1.brackets, 7) == Some(0);
  }
}
