/** The execution core the runner drives: orders, positions and the portfolio's contract.
    Prices, sizing, fees and profit are arbitrary deterministic functions; what is fixed is which
    part of the portfolio each call may create, keep or clear. */
module TradingEngine {
  import opened Basics
  import opened CandleData

  datatype Side = Long | Short
  datatype Intent = OpenIntent | CloseIntent | AddIntent
  datatype Status = PendingOrder | FilledOrder | ExpiredOrder
  datatype Tag = OpenTag | CloseTag | AddTag | ProtectionTag

  /** `ord-{symbol}-{bar}-{tag}`; the text form is in module OrderNames. */
  datatype OrderId = OrderId(symbol: string, bar: nat, tag: Tag)

  datatype Decision =
    | Idle
    | Annotate(detail: string)
    | Enter(side: Side, detail: string)
    | Exit(target: string, detail: string)
    | AddToPosition(detail: string)
    | UpdateProtection(detail: string)

  datatype RiskRecord = RiskRecord(barIndex: nat, detail: string)
  datatype RiskContext = RiskContext(equity: real, openPositions: nat, position: Option<Position>)
  datatype RiskOutcome = RiskOutcome(rejected: bool, detail: string, notional: real, stop: Option<real>,
                                     take: Option<real>, closeFraction: Option<real>, mode: string)

  datatype Position = Position(side: Side, size: real, entryPrice: real, stop: Option<real>, take: Option<real>,
                               addCount: nat, accruedFunding: real)
  datatype Pending = Pending(id: OrderId, side: Side, intent: Intent, decisionBar: nat, notional: real,
                             stop: Option<real>, take: Option<real>, closeFraction: Option<real>, closeReason: string)
  datatype Portfolio = Portfolio(cash: real, position: Option<Position>, pending: Option<Pending>)

  datatype FillCalc = FillCalc(price: real, fee: real, size: real, baseOpen: real, slippageBps: real)
  datatype ProtectionHit = ProtectionHit(kind: string, fillBase: real)

  datatype FillKind = PlainFill | AddFill | PartialCloseFill | ProtectionFill
  datatype Fill = Fill(orderId: OrderId, bar: nat, ts: int, quote: FillCalc, size: real, kind: FillKind)
  datatype Trade = Trade(reason: string, exitBar: nat, exitTs: int, pnl: real)
  datatype Order = Order(id: OrderId, decisionBar: nat, side: Side, intent: Intent, status: Status,
                         protection: bool, mode: Option<string>, closeFraction: Option<real>)

  datatype Core = Core(
    evaluate: (Decision, nat, RiskContext) -> RiskOutcome,
    openFill: (Side, real, real) -> FillCalc,
    closeFill: (Side, real, real) -> FillCalc,
    protectionFill: (Side, real, real) -> FillCalc,
    detect: (Position, Bar) -> Option<ProtectionHit>,
    closedSize: (Position, real) -> real,
    bookOpen: (real, Pending, FillCalc) -> (real, Position),
    bookAdd: (real, Position, FillCalc) -> (real, Position),
    bookClose: (real, Position, FillCalc, Option<real>) -> (real, Position, real),
    bookForced: (real, Position, real) -> (real, real),
    reprotect: (Position, Option<real>, Option<real>) -> Position,
    bookFunding: (real, Position, real) -> (real, Position),
    barFunding: (Position, real, real, bool) -> real,
    equity: (real, Option<Position>, real) -> real)

  /** A waiting open order means no position; a waiting close or add order means there is one. */
  ghost predicate Coherent(p: Portfolio) {
    p.pending.Some? ==> (p.pending.value.intent.OpenIntent? <==> p.position.None?)
  }

  predicate Quiet(p: Portfolio) {
    p.position.None? && p.pending.None?
  }

  function PlacePending(p: Portfolio, order: Pending): (r: Portfolio)
    requires p.pending.None? && (order.intent.OpenIntent? <==> p.position.None?)
    ensures Coherent(r) && r.pending == Some(order) && r.position == p.position
  {
    p.(pending := Some(order))
  }

  function SettleOpen(core: Core, p: Portfolio, quote: FillCalc): (r: Portfolio)
    requires Coherent(p) && p.pending.Some? && p.pending.value.intent.OpenIntent?
    ensures Coherent(r) && r.pending.None? && r.position.Some?
  {
    var (cash, position) := core.bookOpen(p.cash, p.pending.value, quote);
    Portfolio(cash, Some(position), None)
  }

  function SettleAdd(core: Core, p: Portfolio, quote: FillCalc): (r: Portfolio)
    requires Coherent(p) && p.pending.Some? && p.pending.value.intent.AddIntent?
    ensures Coherent(r) && r.pending.None? && r.position.Some?
  {
    var (cash, position) := core.bookAdd(p.cash, p.position.value, quote);
    Portfolio(cash, Some(position), None)
  }

  /** Full close without a fraction, partial close with one; the trade is booked at the given bar. */
  function SettleClose(core: Core, p: Portfolio, quote: FillCalc, bar: nat, ts: int, reason: string,
                       fraction: Option<real>): (r: (Portfolio, Trade))
    requires p.position.Some?
    ensures Coherent(r.0) && r.0.pending.None? && (r.0.position.None? <==> fraction.None?)
    ensures r.1.exitBar == bar && r.1.exitTs == ts
  {
    var (cash, rest, pnl) := core.bookClose(p.cash, p.position.value, quote, fraction);
    (Portfolio(cash, if fraction.None? then None else Some(rest), None), Trade(reason, bar, ts, pnl))
  }

  /** Protection closes the whole remainder; it never runs with an order still waiting. */
  function ClosePosition(core: Core, p: Portfolio, quote: FillCalc, bar: nat, ts: int, kind: string): (r: (Portfolio, Trade))
    requires p.position.Some? && p.pending.None?
    ensures Quiet(r.0) && r.1.exitBar == bar && r.1.exitTs == ts
  {
    SettleClose(core, p, quote, bar, ts, kind, None)
  }

  function ForcedClose(core: Core, p: Portfolio, bar: nat, ts: int, mark: real): (r: (Portfolio, Option<Trade>))
    requires p.pending.None?
    ensures Quiet(r.0) && (r.1.Some? <==> p.position.Some?)
    ensures r.1.Some? ==> r.1.value.exitBar == bar && r.1.value.exitTs == ts
    ensures p.position.None? ==> r.0 == p
  {
    if p.position.None? then (p, None)
    else
      var (cash, pnl) := core.bookForced(p.cash, p.position.value, mark);
      (Portfolio(cash, None, None), Some(Trade("forced_mtm", bar, ts, pnl)))
  }

  function EquityAt(core: Core, p: Portfolio, mark: real): real {
    core.equity(p.cash, p.position, mark)
  }

  function RiskContextAt(core: Core, p: Portfolio, mark: real): RiskContext {
    RiskContext(EquityAt(core, p, mark), if p.position.Some? then 1 else 0, None)
  }
}
