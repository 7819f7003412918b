/** Canonical rows as columns: one array per field, a symbol dictionary, presence bits, and blocks for
    the optional kinds that exist only when some row carries the kind. */
module TapeColumns {
  import opened Basics

  type Symbol(==, !new)

  datatype Candle = Candle(minuteTs: real, open: real, high: real, low: real, close: real, volume: real, turnover: real)

  /** Values may be missing one by one: a pair can be one-sided. */
  datatype Kinds = Kinds(oi: Option<real>, funding: Option<real>, liqLong: Option<real>, liqShort: Option<real>,
                         takerBuy: Option<real>, takerSell: Option<real>)

  /** Whether each kind was observed, which need not agree with the presence of a value. */
  datatype Observed = Observed(oi: bool, funding: bool, liquidations: bool, takerFlow: bool)

  datatype Row = Row(symbol: Symbol, candle: Candle, kinds: Kinds, observed: Observed)

  // ---------------------------------------------------------------- presence bits

  const F_HAS_OI: bv16 := 1
  const F_HAS_FUNDING: bv16 := 2
  const F_HAS_LIQ: bv16 := 4
  const F_HAS_TAKER: bv16 := 8
  const F_OI: bv16 := 16
  const F_FUNDING: bv16 := 32
  const F_LIQ_LONG: bv16 := 64
  const F_LIQ_SHORT: bv16 := 128
  const F_TAKER_BUY: bv16 := 256
  const F_TAKER_SELL: bv16 := 512

  /** `if (on) f |= mask`. */
  function Mark(f: bv16, on: bool, mask: bv16): bv16 {
    if on then f | mask else f
  }

  predicate Set(f: bv16, mask: bv16) {
    f & mask != 0
  }

  function ObservedWord(a: bool, b: bool, c: bool, d: bool): bv16 {
    Mark(Mark(Mark(Mark(0, a, F_HAS_OI), b, F_HAS_FUNDING), c, F_HAS_LIQ), d, F_HAS_TAKER)
  }

  function KindWord(w: bv16, e: bool, f: bool, g: bool, h: bool, i: bool, j: bool): bv16 {
    Mark(Mark(Mark(Mark(Mark(Mark(w, e, F_OI), f, F_FUNDING), g, F_LIQ_LONG), h, F_LIQ_SHORT), i, F_TAKER_BUY), j, F_TAKER_SELL)
  }

  function FlagsOf(row: Row): bv16 {
    var o, k := row.observed, row.kinds;
    KindWord(ObservedWord(o.oi, o.funding, o.liquidations, o.takerFlow),
             k.oi.Some?, k.funding.Some?, k.liqLong.Some?, k.liqShort.Some?, k.takerBuy.Some?, k.takerSell.Some?)
  }

  /** Ten bits, ten independent facts. */
  lemma BitsRead(a: bool, b: bool, c: bool, d: bool, e: bool, f: bool, g: bool, h: bool, i: bool, j: bool)
    ensures var w := KindWord(ObservedWord(a, b, c, d), e, f, g, h, i, j);
            (Set(w, F_HAS_OI) <==> a) && (Set(w, F_HAS_FUNDING) <==> b) && (Set(w, F_HAS_LIQ) <==> c) && (Set(w, F_HAS_TAKER) <==> d) &&
            (Set(w, F_OI) <==> e) && (Set(w, F_FUNDING) <==> f) && (Set(w, F_LIQ_LONG) <==> g) && (Set(w, F_LIQ_SHORT) <==> h) &&
            (Set(w, F_TAKER_BUY) <==> i) && (Set(w, F_TAKER_SELL) <==> j)
  {
  }

  function ReadObserved(f: bv16): Observed {
    Observed(Set(f, F_HAS_OI), Set(f, F_HAS_FUNDING), Set(f, F_HAS_LIQ), Set(f, F_HAS_TAKER))
  }

  lemma FlagsTell(row: Row)
    ensures var f := FlagsOf(row);
            ReadObserved(f) == row.observed &&
            (Set(f, F_OI) <==> row.kinds.oi.Some?) && (Set(f, F_FUNDING) <==> row.kinds.funding.Some?) &&
            (Set(f, F_LIQ_LONG) <==> row.kinds.liqLong.Some?) && (Set(f, F_LIQ_SHORT) <==> row.kinds.liqShort.Some?) &&
            (Set(f, F_TAKER_BUY) <==> row.kinds.takerBuy.Some?) && (Set(f, F_TAKER_SELL) <==> row.kinds.takerSell.Some?)
  {
    hide Set, KindWord, ObservedWord;
    var o, k := row.observed, row.kinds;
    BitsRead(o.oi, o.funding, o.liquidations, o.takerFlow, k.oi.Some?, k.funding.Some?, k.liqLong.Some?, k.liqShort.Some?, k.takerBuy.Some?, k.takerSell.Some?);
    assert ReadObserved(FlagsOf(row)) == row.observed;
  }

  // ---------------------------------------------------------------- columns

  datatype CandleColumns = CandleColumns(
    minuteTs: seq<real>, open: seq<real>, high: seq<real>, low: seq<real>, close: seq<real>, volume: seq<real>, turnover: seq<real>)

  datatype Pair = Pair(a: seq<real>, b: seq<real>)

  datatype Columns = Columns(
    rowCount: nat, symbolNames: seq<Symbol>, symbolIds: seq<nat>, candles: CandleColumns, flags: seq<bv16>,
    oi: Option<seq<real>>, funding: Option<seq<real>>, liq: Option<Pair>, taker: Option<Pair>)

  const MAX_SYMBOLS: nat := 65536

  function Zeros(n: nat): (r: seq<real>)
    ensures |r| == n && forall i :: 0 <= i < n ==> r[i] == 0.0
  {
    seq(n, i => 0.0)
  }

  ghost predicate CandlesSized(c: CandleColumns, n: nat) {
    |c.minuteTs| == |c.open| == |c.high| == |c.low| == |c.close| == |c.volume| == |c.turnover| == n
  }

  function ReadCandle(c: CandleColumns, n: nat, i: nat): Candle
    requires CandlesSized(c, n) && i < n
  {
    Candle(c.minuteTs[i], c.open[i], c.high[i], c.low[i], c.close[i], c.volume[i], c.turnover[i])
  }

  ghost predicate BlockSized(block: Option<seq<real>>, n: nat) {
    block.Some? ==> |block.value| == n
  }

  ghost predicate PairSized(block: Option<Pair>, n: nat) {
    block.Some? ==> |block.value.a| == n && |block.value.b| == n
  }

  /** Every column has a cell per row. */
  ghost predicate Sized(c: Columns) {
    var n := c.rowCount;
    |c.symbolIds| == n && |c.flags| == n && CandlesSized(c.candles, n) && BlockSized(c.oi, n) && BlockSized(c.funding, n) &&
    PairSized(c.liq, n) && PairSized(c.taker, n)
  }

  // ---------------------------------------------------------------- decoding

  function ReadBlock(on: bool, block: Option<seq<real>>, n: nat, i: nat): Option<real>
    requires BlockSized(block, n) && i < n
  {
    if on && block.Some? then Some(block.value[i]) else None
  }

  function Left(p: Option<Pair>): Option<seq<real>> { if p.Some? then Some(p.value.a) else None }
  function Right(p: Option<Pair>): Option<seq<real>> { if p.Some? then Some(p.value.b) else None }

  function ReadKinds(c: Columns, i: nat): Kinds
    requires Sized(c) && i < c.rowCount
  {
    var f, n := c.flags[i], c.rowCount;
    Kinds(ReadBlock(Set(f, F_OI), c.oi, n, i), ReadBlock(Set(f, F_FUNDING), c.funding, n, i),
          ReadBlock(Set(f, F_LIQ_LONG), Left(c.liq), n, i), ReadBlock(Set(f, F_LIQ_SHORT), Right(c.liq), n, i),
          ReadBlock(Set(f, F_TAKER_BUY), Left(c.taker), n, i), ReadBlock(Set(f, F_TAKER_SELL), Right(c.taker), n, i))
  }

  function ReadRow(c: Columns, i: nat): Row
    requires Sized(c) && i < c.rowCount && c.symbolIds[i] < |c.symbolNames|
  {
    Row(c.symbolNames[c.symbolIds[i]], ReadCandle(c.candles, c.rowCount, i), ReadKinds(c, i), ReadObserved(c.flags[i]))
  }

  /** `decodeTapeColumns`: the rows, or the first row whose symbol is not in the dictionary. */
  method DecodeTapeColumns(c: Columns) returns (r: Result<seq<Row>, nat>)
    requires Sized(c)
    ensures r.Ok? ==> |r.value| == c.rowCount && forall i :: 0 <= i < c.rowCount ==> c.symbolIds[i] < |c.symbolNames| && r.value[i] == ReadRow(c, i)
    ensures r.Err? ==> r.error < c.rowCount && c.symbolIds[r.error] >= |c.symbolNames|
    ensures r.Err? ==> forall i :: 0 <= i < r.error ==> c.symbolIds[i] < |c.symbolNames|
  {
    hide ReadKinds, ReadCandle, ReadObserved;
    var rows: seq<Row> := [];
    var i := 0;
    while i < c.rowCount
      invariant 0 <= i <= c.rowCount && |rows| == i
      invariant forall k :: 0 <= k < i ==> c.symbolIds[k] < |c.symbolNames| && rows[k] == ReadRow(c, k)
    {
      if c.symbolIds[i] >= |c.symbolNames| { return Err(i); }
      rows := rows + [ReadRow(c, i)];
      i := i + 1;
    }
    return Ok(rows);
  }

  // ---------------------------------------------------------------- optional blocks

  datatype Kind = Oi | Funding | LiqLong | LiqShort | TakerBuy | TakerSell

  function ValueOf(row: Row, kind: Kind): Option<real> {
    match kind
    case Oi => row.kinds.oi
    case Funding => row.kinds.funding
    case LiqLong => row.kinds.liqLong
    case LiqShort => row.kinds.liqShort
    case TakerBuy => row.kinds.takerBuy
    case TakerSell => row.kinds.takerSell
  }

  ghost predicate Carried(rows: seq<Row>, kind: Kind, i: nat)
    requires i <= |rows|
  {
    exists k :: 0 <= k < i && ValueOf(rows[k], kind).Some?
  }

  ghost predicate Holds(cells: seq<real>, rows: seq<Row>, kind: Kind, i: nat)
    requires i <= |rows|
  {
    |cells| == |rows| && forall k :: 0 <= k < i && ValueOf(rows[k], kind).Some? ==> cells[k] == ValueOf(rows[k], kind).value
  }

  /** The block of a kind exists exactly when one of the first `i` rows carries the kind, and then has
      their values. */
  ghost predicate BlockFor(block: Option<seq<real>>, rows: seq<Row>, kind: Kind, i: nat)
    requires i <= |rows|
  {
    (block.Some? <==> Carried(rows, kind, i)) && (block.Some? ==> Holds(block.value, rows, kind, i))
  }

  /** `block ??= new Float64Array(n); block[i] = v`, when there is a value. */
  function Store(block: Option<seq<real>>, n: nat, i: nat, v: Option<real>): Option<seq<real>>
    requires i < n && BlockSized(block, n)
  {
    if v.None? then block else Some((if block.Some? then block.value else Zeros(n))[i := v.value])
  }

  lemma StoreKeeps(block: Option<seq<real>>, rows: seq<Row>, kind: Kind, i: nat)
    requires i < |rows| && BlockFor(block, rows, kind, i)
    ensures BlockSized(block, |rows|)
    ensures BlockFor(Store(block, |rows|, i, ValueOf(rows[i], kind)), rows, kind, i + 1)
  {
  }

  ghost predicate PairFor(p: Option<Pair>, rows: seq<Row>, a: Kind, b: Kind) {
    (p.Some? <==> Carried(rows, a, |rows|) || Carried(rows, b, |rows|)) &&
    (p.Some? ==> Holds(p.value.a, rows, a, |rows|) && Holds(p.value.b, rows, b, |rows|))
  }

  /** The sides are allocated apart; a side nobody carries is filled with zeros that no bit turns on. */
  function Paired(left: Option<seq<real>>, right: Option<seq<real>>, n: nat): Option<Pair> {
    if left.None? && right.None? then None
    else Some(Pair(if left.Some? then left.value else Zeros(n), if right.Some? then right.value else Zeros(n)))
  }

  // ---------------------------------------------------------------- the other columns

  function PutCandle(c: CandleColumns, n: nat, i: nat, x: Candle): CandleColumns
    requires CandlesSized(c, n) && i < n
  {
    CandleColumns(c.minuteTs[i := x.minuteTs], c.open[i := x.open], c.high[i := x.high], c.low[i := x.low],
                  c.close[i := x.close], c.volume[i := x.volume], c.turnover[i := x.turnover])
  }

  ghost predicate CandlesFor(c: CandleColumns, rows: seq<Row>, i: nat)
    requires i <= |rows|
  {
    CandlesSized(c, |rows|) && forall k :: 0 <= k < i ==> ReadCandle(c, |rows|, k) == rows[k].candle
  }

  lemma CandleKeeps(c: CandleColumns, rows: seq<Row>, i: nat)
    requires i < |rows| && CandlesFor(c, rows, i)
    ensures CandlesFor(PutCandle(c, |rows|, i, rows[i].candle), rows, i + 1)
  {
  }

  /** The dictionary: names without repetition, each id the place of its name. */
  ghost predicate Dictionary(names: seq<Symbol>, idOf: map<Symbol, nat>) {
    |idOf.Keys| == |names| <= MAX_SYMBOLS && (forall k :: 0 <= k < |names| ==> names[k] in idOf && idOf[names[k]] == k) &&
    forall x :: x in idOf ==> idOf[x] < |names| && names[idOf[x]] == x
  }

  ghost function SymbolsOf(rows: seq<Row>, n: nat): set<Symbol>
    requires n <= |rows|
  {
    set k | 0 <= k < n :: rows[k].symbol
  }

  /** The names in the order of their first rows. */
  ghost function NamesOf(rows: seq<Row>, n: nat): seq<Symbol>
    requires n <= |rows|
  {
    if n == 0 then []
    else
      var before := NamesOf(rows, n - 1);
      if rows[n - 1].symbol in before then before else before + [rows[n - 1].symbol]
  }

  /** Name `k` comes from a row all of whose predecessors bear earlier names; every row has its name there. */
  lemma {:induction false} NamesLaw(rows: seq<Row>, n: nat)
    requires n <= |rows|
    ensures forall j :: 0 <= j < n ==> rows[j].symbol in NamesOf(rows, n)
    ensures forall k :: 0 <= k < |NamesOf(rows, n)| ==> FirstBornBy(rows, n, NamesOf(rows, n), k)
  {
    if n > 0 {
      NamesLaw(rows, n - 1);
      var before, names := NamesOf(rows, n - 1), NamesOf(rows, n);
      forall k | 0 <= k < |names| ensures FirstBornBy(rows, n, names, k) {
        if k < |before| {
          assert FirstBornBy(rows, n - 1, before, k) && names[..k] == before[..k];
        } else {
          assert names[..k] == before && rows[n - 1].symbol == names[k];
        }
      }
    }
  }

  ghost predicate FirstBornBy(rows: seq<Row>, n: nat, names: seq<Symbol>, k: nat)
    requires n <= |rows| && k < |names|
  {
    names[k] !in names[..k] && exists j :: 0 <= j < n && rows[j].symbol == names[k] && forall i :: 0 <= i < j ==> rows[i].symbol in names[..k]
  }

  lemma NoSymbols(rows: seq<Row>)
    ensures SymbolsOf(rows, 0) == {} && NamesOf(rows, 0) == []
  {
  }

  lemma OneMoreRow(rows: seq<Row>, i: nat)
    requires i < |rows|
    ensures SymbolsOf(rows, i + 1) == SymbolsOf(rows, i) + {rows[i].symbol}
    ensures NamesOf(rows, i + 1) == if rows[i].symbol in NamesOf(rows, i) then NamesOf(rows, i) else NamesOf(rows, i) + [rows[i].symbol]
  {
  }

  lemma MoreSymbols(rows: seq<Row>, i: nat)
    requires i <= |rows|
    ensures |SymbolsOf(rows, i)| <= |SymbolsOf(rows, |rows|)|
  {
    SubsetSize(SymbolsOf(rows, i), SymbolsOf(rows, |rows|));
  }

  lemma SubsetSize(a: set<Symbol>, b: set<Symbol>)
    requires a <= b
    ensures |a| <= |b|
  {
    assert b == a + (b - a) && a * (b - a) == {};
  }

  ghost predicate IdsFor(ids: seq<nat>, names: seq<Symbol>, rows: seq<Row>, i: nat)
    requires i <= |rows|
  {
    |ids| == |rows| && forall k :: 0 <= k < i ==> ids[k] < |names| && names[ids[k]] == rows[k].symbol
  }

  /** The id of a symbol, added to the dictionary when new; none when the dictionary is full. */
  method IdOf(symbol: Symbol, names: seq<Symbol>, idOf: map<Symbol, nat>) returns (id: Option<nat>, names': seq<Symbol>, idOf': map<Symbol, nat>)
    requires Dictionary(names, idOf)
    ensures id.None? <==> symbol !in idOf && |names| == MAX_SYMBOLS
    ensures id.Some? ==> Dictionary(names', idOf') && names <= names' && idOf'.Keys == idOf.Keys + {symbol} &&
                         id.value < |names'| && names'[id.value] == symbol
    ensures id.Some? ==> names' == if symbol in names then names else names + [symbol]
  {
    if symbol in idOf { return Some(idOf[symbol]), names, idOf; }
    if |names| >= MAX_SYMBOLS { return None, names, idOf; }
    id, names', idOf' := Some(|names|), names + [symbol], idOf[symbol := |names|];
    assert idOf'.Keys == idOf.Keys + {symbol};
  }

  // ---------------------------------------------------------------- encoding

  ghost predicate FlagsFor(flags: seq<bv16>, rows: seq<Row>, i: nat)
    requires i <= |rows|
  {
    |flags| == |rows| && forall k :: 0 <= k < i ==> flags[k] == FlagsOf(rows[k])
  }

  /** What the columns of these rows are. */
  ghost predicate Encodes(rows: seq<Row>, c: Columns) {
    c.rowCount == |rows| && IdsFor(c.symbolIds, c.symbolNames, rows, |rows|) && CandlesFor(c.candles, rows, |rows|) &&
    FlagsFor(c.flags, rows, |rows|) && BlockFor(c.oi, rows, Oi, |rows|) && BlockFor(c.funding, rows, Funding, |rows|) &&
    PairFor(c.liq, rows, LiqLong, LiqShort) && PairFor(c.taker, rows, TakerBuy, TakerSell)
  }

  lemma EncodedSized(rows: seq<Row>, c: Columns)
    requires Encodes(rows, c)
    ensures Sized(c)
  {
  }

  /** Which field of a row each column holds, and which bit tells what: bit by bit and column by column. */
  lemma ColumnsLaw(rows: seq<Row>, c: Columns, i: nat)
    requires Encodes(rows, c) && i < |rows|
    ensures |c.symbolIds| == |c.flags| == |rows| && c.symbolIds[i] < |c.symbolNames| && c.symbolNames[c.symbolIds[i]] == rows[i].symbol
    ensures var x, d := rows[i].candle, c.candles;
            CandlesSized(d, |rows|) && d.minuteTs[i] == x.minuteTs && d.open[i] == x.open && d.high[i] == x.high && d.low[i] == x.low &&
            d.close[i] == x.close && d.volume[i] == x.volume && d.turnover[i] == x.turnover
    ensures var k := rows[i].kinds;
            Cell(c.oi, i, k.oi) && Cell(c.funding, i, k.funding) && Cell(Left(c.liq), i, k.liqLong) && Cell(Right(c.liq), i, k.liqShort) &&
            Cell(Left(c.taker), i, k.takerBuy) && Cell(Right(c.taker), i, k.takerSell)
    ensures var f, o, k := c.flags[i], rows[i].observed, rows[i].kinds;
            (f & 0x001 != 0 <==> o.oi) && (f & 0x002 != 0 <==> o.funding) && (f & 0x004 != 0 <==> o.liquidations) && (f & 0x008 != 0 <==> o.takerFlow) &&
            (f & 0x010 != 0 <==> k.oi.Some?) && (f & 0x020 != 0 <==> k.funding.Some?) && (f & 0x040 != 0 <==> k.liqLong.Some?) &&
            (f & 0x080 != 0 <==> k.liqShort.Some?) && (f & 0x100 != 0 <==> k.takerBuy.Some?) && (f & 0x200 != 0 <==> k.takerSell.Some?)
  {
    FlagsTell(rows[i]);
    hide FlagsOf, Carried, Holds;
    assert c.flags[i] == FlagsOf(rows[i]);
    assert ReadCandle(c.candles, |rows|, i) == rows[i].candle;
    CellLaw(rows, c, i);
  }

  /** A value a row carries is in its cell. */
  ghost predicate Cell(block: Option<seq<real>>, i: nat, v: Option<real>) {
    v.Some? ==> block.Some? && i < |block.value| && block.value[i] == v.value
  }

  lemma CellLaw(rows: seq<Row>, c: Columns, i: nat)
    requires Encodes(rows, c) && i < |rows|
    ensures var k := rows[i].kinds;
            Cell(c.oi, i, k.oi) && Cell(c.funding, i, k.funding) && Cell(Left(c.liq), i, k.liqLong) && Cell(Right(c.liq), i, k.liqShort) &&
            Cell(Left(c.taker), i, k.takerBuy) && Cell(Right(c.taker), i, k.takerSell)
  {
    hide Carried;
    CarriedBy(rows, Oi, i);
    CarriedBy(rows, Funding, i);
    CarriedBy(rows, LiqLong, i);
    CarriedBy(rows, LiqShort, i);
    CarriedBy(rows, TakerBuy, i);
    CarriedBy(rows, TakerSell, i);
  }

  lemma BlockReads(rows: seq<Row>, block: Option<seq<real>>, kind: Kind, i: nat, on: bool)
    requires i < |rows| && BlockSized(block, |rows|) && (on <==> ValueOf(rows[i], kind).Some?)
    requires on ==> block.Some? && Holds(block.value, rows, kind, |rows|)
    ensures ReadBlock(on, block, |rows|, i) == ValueOf(rows[i], kind)
  {
  }

  lemma CarriedBy(rows: seq<Row>, kind: Kind, i: nat)
    requires i < |rows|
    ensures ValueOf(rows[i], kind).Some? ==> Carried(rows, kind, |rows|)
  {
  }

  /** Columns of the rows decode to the rows, field by field. */
  lemma DecodesBack(rows: seq<Row>, c: Columns, i: nat)
    requires Encodes(rows, c) && Sized(c) && i < |rows|
    ensures c.symbolIds[i] < |c.symbolNames| && ReadRow(c, i) == rows[i]
  {
    hide FlagsOf, Carried, Set, ReadBlock, Holds, ReadObserved;
    var row := rows[i];
    FlagsTell(row);
    CarriedBy(rows, Oi, i);
    CarriedBy(rows, Funding, i);
    CarriedBy(rows, LiqLong, i);
    CarriedBy(rows, LiqShort, i);
    CarriedBy(rows, TakerBuy, i);
    CarriedBy(rows, TakerSell, i);
    var f := c.flags[i];
    BlockReads(rows, c.oi, Oi, i, Set(f, F_OI));
    BlockReads(rows, c.funding, Funding, i, Set(f, F_FUNDING));
    BlockReads(rows, Left(c.liq), LiqLong, i, Set(f, F_LIQ_LONG));
    BlockReads(rows, Right(c.liq), LiqShort, i, Set(f, F_LIQ_SHORT));
    BlockReads(rows, Left(c.taker), TakerBuy, i, Set(f, F_TAKER_BUY));
    BlockReads(rows, Right(c.taker), TakerSell, i, Set(f, F_TAKER_SELL));
    assert ReadKinds(c, i) == row.kinds;
    assert ReadRow(c, i) == row;
  }

  /** The optional columns while they are being filled. */
  datatype Blocks = Blocks(oi: Option<seq<real>>, funding: Option<seq<real>>, liqLong: Option<seq<real>>, liqShort: Option<seq<real>>,
                           takerBuy: Option<seq<real>>, takerSell: Option<seq<real>>)

  ghost predicate BlocksFor(b: Blocks, rows: seq<Row>, i: nat)
    requires i <= |rows|
  {
    BlockFor(b.oi, rows, Oi, i) && BlockFor(b.funding, rows, Funding, i) && BlockFor(b.liqLong, rows, LiqLong, i) &&
    BlockFor(b.liqShort, rows, LiqShort, i) && BlockFor(b.takerBuy, rows, TakerBuy, i) && BlockFor(b.takerSell, rows, TakerSell, i)
  }

  /** The value part of one row: each value into its block, each presence into the flag word. */
  method PutKinds(b: Blocks, f0: bv16, rows: seq<Row>, i: nat) returns (r: Blocks, f: bv16)
    requires i < |rows| && BlocksFor(b, rows, i)
    ensures BlocksFor(r, rows, i + 1)
    ensures var k := rows[i].kinds;
            f == KindWord(f0, k.oi.Some?, k.funding.Some?, k.liqLong.Some?, k.liqShort.Some?, k.takerBuy.Some?, k.takerSell.Some?)
  {
    hide BlockFor, Mark;
    var n, k := |rows|, rows[i].kinds;
    f := f0;
    StoreKeeps(b.oi, rows, Oi, i);
    var oi := Store(b.oi, n, i, k.oi);
    f := Mark(f, k.oi.Some?, F_OI);
    StoreKeeps(b.funding, rows, Funding, i);
    var funding := Store(b.funding, n, i, k.funding);
    f := Mark(f, k.funding.Some?, F_FUNDING);
    StoreKeeps(b.liqLong, rows, LiqLong, i);
    var liqLong := Store(b.liqLong, n, i, k.liqLong);
    f := Mark(f, k.liqLong.Some?, F_LIQ_LONG);
    StoreKeeps(b.liqShort, rows, LiqShort, i);
    var liqShort := Store(b.liqShort, n, i, k.liqShort);
    f := Mark(f, k.liqShort.Some?, F_LIQ_SHORT);
    StoreKeeps(b.takerBuy, rows, TakerBuy, i);
    var takerBuy := Store(b.takerBuy, n, i, k.takerBuy);
    f := Mark(f, k.takerBuy.Some?, F_TAKER_BUY);
    StoreKeeps(b.takerSell, rows, TakerSell, i);
    var takerSell := Store(b.takerSell, n, i, k.takerSell);
    f := Mark(f, k.takerSell.Some?, F_TAKER_SELL);
    r := Blocks(oi, funding, liqLong, liqShort, takerBuy, takerSell);
    assert BlocksFor(r, rows, i + 1);
  }

  method PutFlags(row: Row) returns (f: bv16)
    ensures var o := row.observed; f == ObservedWord(o.oi, o.funding, o.liquidations, o.takerFlow)
  {
    f := 0;
    f := Mark(f, row.observed.oi, F_HAS_OI);
    f := Mark(f, row.observed.funding, F_HAS_FUNDING);
    f := Mark(f, row.observed.liquidations, F_HAS_LIQ);
    f := Mark(f, row.observed.takerFlow, F_HAS_TAKER);
  }

  /** The columns while they are being filled. */
  datatype Part = Part(ids: seq<nat>, candles: CandleColumns, flags: seq<bv16>, blocks: Blocks)

  /** Everything the loop has filled for the first `i` rows. */
  ghost predicate Filled(rows: seq<Row>, i: nat, names: seq<Symbol>, p: Part)
    requires i <= |rows|
  {
    IdsFor(p.ids, names, rows, i) && CandlesFor(p.candles, rows, i) && FlagsFor(p.flags, rows, i) && BlocksFor(p.blocks, rows, i)
  }

  lemma IdsKeep(ids: seq<nat>, names: seq<Symbol>, names': seq<Symbol>, rows: seq<Row>, i: nat, id: nat)
    requires i < |rows| && IdsFor(ids, names, rows, i) && names <= names' && id < |names'| <= MAX_SYMBOLS && names'[id] == rows[i].symbol
    ensures IdsFor(ids[i := id % 65536], names', rows, i + 1)
  {
  }

  lemma FlagsKeep(flags: seq<bv16>, rows: seq<Row>, i: nat, f: bv16)
    requires i < |rows| && FlagsFor(flags, rows, i) && f == FlagsOf(rows[i])
    ensures FlagsFor(flags[i := f], rows, i + 1)
  {
  }

  function EmptyPart(n: nat): Part {
    var z := Zeros(n);
    Part(seq(n, _ => 0), CandleColumns(z, z, z, z, z, z, z), seq(n, _ => 0), Blocks(None, None, None, None, None, None))
  }

  lemma NothingFilled(rows: seq<Row>)
    ensures Filled(rows, 0, [], EmptyPart(|rows|))
  {
  }

  lemma EmptyDictionary()
    ensures Dictionary([], map[])
  {
  }

  lemma DictionarySize(names: seq<Symbol>, idOf: map<Symbol, nat>)
    requires Dictionary(names, idOf)
    ensures |idOf.Keys| == |names| <= MAX_SYMBOLS
  {
  }

  /** One row into the columns. The id is stored in sixteen bits, which loses nothing. */
  method EncodeRow(rows: seq<Row>, i: nat, names: seq<Symbol>, p: Part, names': seq<Symbol>, id: nat) returns (r: Part)
    requires i < |rows| && Filled(rows, i, names, p)
    requires names <= names' && id < |names'| <= MAX_SYMBOLS && names'[id] == rows[i].symbol
    ensures Filled(rows, i + 1, names', r)
  {
    hide BlocksFor, CandlesFor, IdsFor, FlagsFor, KindWord, ObservedWord, PutCandle;
    FilledSizes(rows, i, names, p);
    var observed := PutFlags(rows[i]);
    var blocks, f := PutKinds(p.blocks, observed, rows, i);
    IdsKeep(p.ids, names, names', rows, i, id);
    CandleKeeps(p.candles, rows, i);
    FlagsKeep(p.flags, rows, i, f);
    r := Part(p.ids[i := id % 65536], PutCandle(p.candles, |rows|, i, rows[i].candle), p.flags[i := f], blocks);
    assert Filled(rows, i + 1, names', r);
  }

  lemma FilledSizes(rows: seq<Row>, i: nat, names: seq<Symbol>, p: Part)
    requires i <= |rows| && Filled(rows, i, names, p)
    ensures |p.ids| == |p.flags| == |rows| && CandlesSized(p.candles, |rows|)
  {
  }

  /** `encodeTapeColumns`: the columns of the rows, unless the rows have more distinct symbols than a
      16-bit id can tell apart. */
  method EncodeTapeColumns(rows: seq<Row>) returns (r: Result<Columns, Symbol>)
    ensures r.Err? <==> |SymbolsOf(rows, |rows|)| > MAX_SYMBOLS
    ensures r.Ok? ==> Encodes(rows, r.value) && r.value.symbolNames == NamesOf(rows, |rows|)
  {
    hide Filled, Dictionary, Encodes, EmptyPart, SymbolsOf, NamesOf;
    var names: seq<Symbol>, idOf: map<Symbol, nat> := [], map[];
    var part := EmptyPart(|rows|);
    NothingFilled(rows);
    EmptyDictionary();
    NoSymbols(rows);
    var i := 0;
    while i < |rows|
      invariant 0 <= i <= |rows| && Filled(rows, i, names, part)
      invariant Dictionary(names, idOf) && idOf.Keys == SymbolsOf(rows, i) && names == NamesOf(rows, i)
    {
      OneMoreRow(rows, i);
      var id, names', idOf' := IdOf(rows[i].symbol, names, idOf);
      if id.None? {
        DictionarySize(names, idOf);
        MoreSymbols(rows, i + 1);
        return Err(rows[i].symbol);
      }
      DictionarySize(names', idOf');
      part := EncodeRow(rows, i, names, part, names', id.value);
      names, idOf := names', idOf';
      i := i + 1;
    }
    DictionarySize(names, idOf);
    AllFilled(rows, names, part);
    r := Ok(Assembled(|rows|, names, part));
  }

  function Assembled(n: nat, names: seq<Symbol>, p: Part): Columns {
    Columns(n, names, p.ids, p.candles, p.flags, p.blocks.oi, p.blocks.funding,
            Paired(p.blocks.liqLong, p.blocks.liqShort, n), Paired(p.blocks.takerBuy, p.blocks.takerSell, n))
  }

  lemma AllFilled(rows: seq<Row>, names: seq<Symbol>, p: Part)
    requires Filled(rows, |rows|, names, p)
    ensures Encodes(rows, Assembled(|rows|, names, p))
  {
  }

  /** Through the columns and back: the same rows, whenever they can be encoded at all. */
  method ThroughColumns(rows: seq<Row>) returns (back: Option<seq<Row>>)
    ensures back == if |SymbolsOf(rows, |rows|)| <= MAX_SYMBOLS then Some(rows) else None
  {
    hide Encodes, ReadRow, Sized;
    var encoded := EncodeTapeColumns(rows);
    if encoded.Err? { return None; }
    var c := encoded.value;
    EncodedSized(rows, c);
    forall i | 0 <= i < |rows| ensures Sized(c) && c.rowCount == |rows| && i < |c.symbolIds| && c.symbolIds[i] < |c.symbolNames| && ReadRow(c, i) == rows[i] {
      RowBack(rows, c, i);
    }
    RowCount(rows, c);
    var decoded := DecodeTapeColumns(c);
    assert decoded.Ok?;
    assert decoded.value == rows;
    back := Some(decoded.value);
  }

  lemma RowBack(rows: seq<Row>, c: Columns, i: nat)
    requires Encodes(rows, c) && Sized(c) && i < |rows|
    ensures c.rowCount == |rows| == |c.symbolIds| && c.symbolIds[i] < |c.symbolNames| && ReadRow(c, i) == rows[i]
  {
    hide ReadRow;
    DecodesBack(rows, c, i);
  }

  lemma RowCount(rows: seq<Row>, c: Columns)
    requires Encodes(rows, c)
    ensures c.rowCount == |rows|
  {
  }
}
