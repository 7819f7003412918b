/** What an indicator request means, said of the catalog entry, the request and the candles. */
module IndicatorLaws {
  import opened Basics
  import opened CandleData
  import opened Indicators
  import opened MovingAverage

  /** A name stands for the first entry of the catalog that bears it. */
  lemma {:induction false} FindLaw(catalog: seq<Definition>, name: Name)
    ensures match Find(catalog, name)
            case None => forall i :: 0 <= i < |catalog| ==> catalog[i].name != name
            case Some(def) => exists i :: 0 <= i < |catalog| && catalog[i] == def && def.name == name && forall j :: 0 <= j < i ==> catalog[j].name != name
  {
    if catalog != [] && catalog[0].name != name {
      FindLaw(catalog[1..], name);
      var found := Find(catalog[1..], name);
      if found.Some? {
        var i :| 0 <= i < |catalog[1..]| && catalog[1..][i] == found.value && forall j :: 0 <= j < i ==> catalog[1..][j].name != name;
        assert catalog[i + 1] == found.value && forall j :: 0 <= j < i + 1 ==> catalog[j].name != name;
      } else {
        assert forall i :: 0 < i < |catalog| ==> catalog[i] == catalog[1..][i - 1];
      }
    }
  }

  /** Argument `i` goes to parameter name `i`, unless the name comes again later; surplus arguments go nowhere. */
  lemma {:induction false} PositionalLaw(names: seq<Name>, args: seq<real>, n: nat, i: nat)
    requires i < n <= |args| && i < |names| && forall j :: i < j < n && j < |names| ==> names[j] != names[i]
    ensures names[i] in Positional(names, args, n) && Positional(names, args, n)[names[i]] == args[i]
    decreases n
  {
    if i < n - 1 {
      PositionalLaw(names, args, n - 1, i);
    }
  }

  lemma {:induction false} NothingElse(names: seq<Name>, args: seq<real>, n: nat, k: Name)
    requires n <= |args| && k in Positional(names, args, n)
    ensures exists i :: 0 <= i < n && i < |names| && names[i] == k
  {
    if n > |names| || (n > 0 && names[n - 1] != k) {
      NothingElse(names, args, n - 1, k);
    }
  }

  // ---------------------------------------------------------------- which requests are accepted

  /** The parameters an indicator runs with: those given, and the defaults of the others. */
  ghost predicate Completes(def: Definition, given: Params, all: Params) {
    (forall k :: k in given ==> k in all && all[k] == given[k]) &&
    (forall k :: k in def.schema && k !in given && def.schema[k].default.Some? ==> k in all && all[k] == def.schema[k].default.value) &&
    forall k :: k in all ==> k in given || (k in def.schema && def.schema[k].default.Some?)
  }

  function AsReal(n: int): real { n as real }

  ghost predicate Whole(v: real) {
    exists n :: AsReal(n) == v
  }

  /** A parameter value obeys its limits. */
  ghost predicate Obeys(spec: ParamSpec, v: real) {
    (spec.isInt ==> Whole(v)) && (spec.min.Some? ==> spec.min.value <= v) && (spec.exclusiveMin.Some? ==> spec.exclusiveMin.value < v)
  }

  /** Accepted exactly when the source is offered, every given parameter is known and obeys its limits, no parameter
      without a default is left out, and the completed parameters are consistent. */
  lemma AcceptsLaw(def: Definition, req: Request, all: Params)
    requires Completes(def, req.params, all)
    ensures Accepts(def, req) <==>
            (req.source.Some? ==> req.source.value in def.sources) && def.consistent(all) &&
            (forall k :: k in req.params ==> k in def.schema && Obeys(def.schema[k], req.params[k])) &&
            forall k :: k in def.schema && k !in req.params ==> def.schema[k].default.Some?
  {
    CompletesOnce(def, req.params, all);
    forall k | k in req.params && k in def.schema ensures Fine(def.schema[k], req.params[k]) <==> Obeys(def.schema[k], req.params[k]) {
      FineLaw(def.schema[k], req.params[k]);
    }
    hide Fine, Obeys;
  }

  lemma FineLaw(spec: ParamSpec, v: real)
    ensures Fine(spec, v) <==> Obeys(spec, v)
  {
    assert v == v.Floor as real ==> AsReal(v.Floor) == v;
  }

  lemma CompletesOnce(def: Definition, given: Params, all: Params)
    requires Completes(def, given, all)
    ensures all == Resolved(def, given)
  {
    var r := Resolved(def, given);
    assert forall k :: k in all <==> k in r;
    assert forall k :: k in all ==> all[k] == r[k];
  }

  /** A completion exists for every request, so the law above speaks of every request. */
  lemma KeyLaw(def: Definition, req: Request)
    ensures var key := KeyOf(def, req);
            key.name == req.name && Completes(def, req.params, key.params) &&
            match req.source
            case Some(s) => key.source == s
            case None => if def.sources == [] then key.source == Close else key.source == def.sources[0]
  {
  }

  // ---------------------------------------------------------------- what is answered

  /** The lives of an instance: created for the key, then given candle after candle. */
  ghost predicate Fedby(adapter: Adapter, key: Key, candles: seq<Bar>, n: nat, lives: seq<Instance>) {
    n <= |candles| && |lives| == n + 1 && lives[0] == adapter.create(key) &&
    forall i :: 0 <= i < n ==> lives[i + 1] == adapter.update(lives[i], candles[i])
  }

  lemma {:induction false} FedLaw(adapter: Adapter, key: Key, candles: seq<Bar>, n: nat, lives: seq<Instance>)
    requires Fedby(adapter, key, candles, n, lives)
    ensures Fed(adapter, key, candles, n) == lives[n]
  {
    if n > 0 {
      FedLaw(adapter, key, candles, n - 1, lives[..n]);
    }
  }

  /** A query is unsupported if the catalog does not know the name, invalid if its entry does not accept it, and else
      the value of an instance that was given the candles up to and including bar `t`. */
  lemma QueryLaw(ind: Indicators, candles: seq<Bar>, t: nat, req: Request, lives: seq<Instance>)
    requires t < |candles|
    requires var def := Find(ind.catalog, req.name); def.Some? ==> Fedby(ind.adapter, KeyOf(def.value, req), candles, t + 1, lives)
    ensures QueryAnswer(ind, candles, t, req) ==
            match Find(ind.catalog, req.name)
            case None => Err(Unsupported)
            case Some(def) => if Accepts(def, req) then Ok(ind.adapter.value(lives[t + 1])) else Err(Invalid)
  {
    var def := Find(ind.catalog, req.name);
    if def.Some? {
      FedLaw(ind.adapter, KeyOf(def.value, req), candles, t + 1, lives);
    }
  }

  /** The legacy accessor answers a number exactly when the query by positional arguments answers one. */
  lemma LegacyLaw(ind: Indicators, candles: seq<Bar>, t: nat, name: Name, args: seq<real>, x: real)
    requires t < |candles|
    ensures LegacyAnswer(ind, candles, t, name, args) == Some(x) <==>
            exists def :: Find(ind.catalog, name) == Some(def) &&
              QueryAnswer(ind, candles, t, Request(name, Positional(def.paramNames, args, |args|), None)) == Ok(Some(Scalar(x)))
  {
  }

  /** The derived sources are the means of their prices. */
  lemma SourceLaw(bar: Bar)
    ensures 3.0 * SourceValue(bar, Hlc3) == bar.high + bar.low + bar.close
    ensures 4.0 * SourceValue(bar, Ohlc4) == bar.open + bar.high + bar.low + bar.close
    ensures SourceValue(bar, Close) == bar.close && SourceValue(bar, Open) == bar.open && SourceValue(bar, High) == bar.high
    ensures SourceValue(bar, Low) == bar.low && SourceValue(bar, Volume) == bar.volume
  {
  }
}
