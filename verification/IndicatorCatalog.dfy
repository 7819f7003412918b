/** The committed catalog of eight indicators, and that it meets what the engine relies on. */
module IndicatorCatalog {
  import opened Basics
  import opened Indicators
  import opened MovingAverage

  const WHOLE: ParamSpec := ParamSpec(true, Some(1.0), None, None)

  function Whole(default: real): ParamSpec { WHOLE.(default := Some(default)) }

  function Plain(text: string, params: seq<Name>, schema: map<Name, ParamSpec>, sources: seq<Source>): Definition {
    Definition(Name(text), params, schema, sources, _ => true)
  }

  const STDDEV: Name := Name("stddev")
  const FAST: Name := Name("fast")
  const SLOW: Name := Name("slow")
  const SIGNAL: Name := Name("signal")
  const K: Name := Name("k")
  const D: Name := Name("d")
  const SMOOTH: Name := Name("smooth")

  const PRICES: seq<Source> := [Close, Open, High, Low, Hlc3]
  const OHLC: seq<Source> := [High, Low, Close]

  /** The one check across parameters: fast before slow. */
  predicate FastBelowSlow(p: Params) {
    FAST in p && SLOW in p ==> p[FAST] < p[SLOW]
  }

  const CATALOG: seq<Definition> := [
    Plain("sma", [PERIOD], map[PERIOD := WHOLE], PRICES),
    Plain("ema", [PERIOD], map[PERIOD := WHOLE], PRICES),
    Plain("rsi", [PERIOD], map[PERIOD := Whole(14.0)], [Close]),
    Definition(Name("macd"), [FAST, SLOW, SIGNAL], map[FAST := Whole(12.0), SLOW := Whole(26.0), SIGNAL := Whole(9.0)], [Close], FastBelowSlow),
    Plain("atr", [PERIOD], map[PERIOD := Whole(14.0)], OHLC),
    Plain("bollinger", [PERIOD, STDDEV], map[PERIOD := Whole(20.0), STDDEV := ParamSpec(false, None, Some(0.0), Some(2.0))], PRICES),
    Plain("adx", [PERIOD], map[PERIOD := Whole(14.0)], OHLC),
    Plain("stochastic", [K, D, SMOOTH], map[K := Whole(14.0), D := Whole(3.0), SMOOTH := Whole(1.0)], OHLC)]

  /** So remembering verdicts by key is sound for it, and its moving average is the one compared above. */
  lemma CatalogIsSound()
    ensures WellFormed(CATALOG)
    ensures Find(CATALOG, SMA).Some? && CatalogsSma(Find(CATALOG, SMA).value)
  {
    WholeIsFine(14.0, 14);
    WholeIsFine(12.0, 12);
    WholeIsFine(26.0, 26);
    WholeIsFine(9.0, 9);
    WholeIsFine(20.0, 20);
    WholeIsFine(3.0, 3);
    WholeIsFine(1.0, 1);
    hide Find;
    FirstFound(CATALOG);
    assert CATALOG[0].name == SMA;
  }

  lemma FirstFound(catalog: seq<Definition>)
    requires catalog != []
    ensures Find(catalog, catalog[0].name) == Some(catalog[0])
  {
  }

  lemma WholeIsFine(v: real, n: nat)
    requires v == n as real && n >= 1
    ensures Fine(Whole(v), v)
  {
  }
}
