/** The indicator engine of one symbol's run: streaming instances fed bar by bar, memoized values, cached
    validation. It holds all candles and lives through all bars; what it answers at bar `t` is nevertheless
    a function of the candles up to `t`. */
module Indicators {
  import opened Basics
  import opened CandleData

  // ---------------------------------------------------------------- catalog and requests

  datatype Name = Name(text: string)
  datatype Source = Close | Open | High | Low | Volume | Hlc3 | Ohlc4
  type Params = map<Name, real>

  datatype ParamSpec = ParamSpec(isInt: bool, min: Option<real>, exclusiveMin: Option<real>, default: Option<real>)

  /** `consistent` is the check across resolved parameters that only one indicator has. */
  datatype Definition = Definition(name: Name, paramNames: seq<Name>, schema: map<Name, ParamSpec>, sources: seq<Source>,
                                   consistent: Params -> bool)

  datatype Request = Request(name: Name, params: Params, source: Option<Source>)

  /** What identifies a streaming instance: requests that mean the same share it. */
  datatype Key = Key(name: Name, params: Params, source: Source)

  function Find(catalog: seq<Definition>, name: Name): (r: Option<Definition>)
    ensures r.Some? ==> r.value in catalog && r.value.name == name
  {
    if catalog == [] then None
    else if catalog[0].name == name then Some(catalog[0])
    else Find(catalog[1..], name)
  }

  function Defaults(def: Definition): Params {
    map k | k in def.schema && def.schema[k].default.Some? :: def.schema[k].default.value
  }

  /** Defaults, overridden by what the request gives. */
  function Resolved(def: Definition, params: Params): Params {
    Defaults(def) + params
  }

  function KeyOf(def: Definition, req: Request): Key {
    Key(req.name, Resolved(def, req.params),
        if req.source.Some? then req.source.value else if |def.sources| > 0 then def.sources[0] else Close)
  }

  predicate Fine(spec: ParamSpec, v: real) {
    (spec.isInt ==> v == v.Floor as real) && (spec.min.Some? ==> v >= spec.min.value) &&
    (spec.exclusiveMin.Some? ==> v > spec.exclusiveMin.value)
  }

  predicate ParamsFine(def: Definition, params: Params) {
    (forall k :: k in params ==> k in def.schema && Fine(def.schema[k], params[k])) &&
    forall k :: k in def.schema && def.schema[k].default.None? ==> k in params
  }

  /** `validateIndicatorRequest` for an indicator in the catalog: its verdict, not its list of reasons. */
  predicate Accepts(def: Definition, req: Request) {
    (req.source.Some? ==> req.source.value in def.sources) && ParamsFine(def, req.params) && def.consistent(Resolved(def, req.params))
  }

  /** The same question asked of the key alone. */
  predicate AcceptsKey(def: Definition, key: Key) {
    key.source in def.sources && ParamsFine(def, key.params) && def.consistent(key.params)
  }

  /** Every definition offers a source, and its defaults obey its own limits. */
  ghost predicate WellFormed(catalog: seq<Definition>) {
    forall i :: 0 <= i < |catalog| ==> |catalog[i].sources| > 0 && DefaultsFine(catalog[i])
  }

  ghost predicate DefaultsFine(def: Definition) {
    forall k :: k in def.schema && def.schema[k].default.Some? ==> Fine(def.schema[k], def.schema[k].default.value)
  }

  /** Requests with the same key get the same verdict, so a verdict may be remembered by key. */
  lemma VerdictByKey(def: Definition, req: Request)
    requires |def.sources| > 0 && DefaultsFine(def)
    ensures Accepts(def, req) <==> AcceptsKey(def, KeyOf(def, req))
  {
    hide Fine;
    var params, all := req.params, Resolved(def, req.params);
    assert forall k :: k in params ==> k in all && all[k] == params[k];
    assert forall k :: k in all ==> k in params || (k in def.schema && def.schema[k].default.Some? && all[k] == def.schema[k].default.value);
    assert ParamsFine(def, params) <==> ParamsFine(def, all);
  }

  // ---------------------------------------------------------------- streaming instances

  datatype Value = Scalar(number: real) | Compound(parts: seq<real>)

  type FormulaState(!new)

  /** A streaming instance: the moving-average formula is modelled, the others are arbitrary. */
  datatype Instance =
    | SmaInstance(period: nat, source: Source, window: seq<real>)
    | OtherInstance(state: FormulaState)

  /** Any backend: how an instance starts, takes a closed candle and reads its value. */
  datatype Adapter = Adapter(create: Key -> Instance, update: (Instance, Bar) -> Instance, value: Instance -> Option<Value>)

  datatype Indicators = Indicators(catalog: seq<Definition>, adapter: Adapter)

  /** An instance that was fed the first `n` candles. */
  function Fed(adapter: Adapter, key: Key, candles: seq<Bar>, n: nat): Instance
    requires n <= |candles|
  {
    if n == 0 then adapter.create(key) else adapter.update(Fed(adapter, key, candles, n - 1), candles[n - 1])
  }

  function ValueAsOf(adapter: Adapter, key: Key, candles: seq<Bar>, t: nat): Option<Value>
    requires t < |candles|
  {
    adapter.value(Fed(adapter, key, candles, t + 1))
  }

  lemma {:induction false} FedIsLocal(adapter: Adapter, key: Key, a: seq<Bar>, b: seq<Bar>, n: nat)
    requires n <= |a| && n <= |b| && a[..n] == b[..n]
    ensures Fed(adapter, key, a, n) == Fed(adapter, key, b, n)
  {
    if n > 0 {
      assert a[..n - 1] == a[..n][..n - 1] && b[..n - 1] == b[..n][..n - 1];
      assert a[n - 1] == a[..n][n - 1] == b[..n][n - 1] == b[n - 1];
      FedIsLocal(adapter, key, a, b, n - 1);
    }
  }

  // ---------------------------------------------------------------- what the accessor means

  datatype Refusal = Unsupported | Invalid

  /** `query` at bar `t`: a refusal, or the value (absent while warming up) of the candles `[0..t]`. */
  function QueryAnswer(ind: Indicators, candles: seq<Bar>, t: nat, req: Request): Result<Option<Value>, Refusal>
    requires t < |candles|
  {
    match Find(ind.catalog, req.name)
    case None => Err(Unsupported)
    case Some(def) =>
      if Accepts(def, req) then Ok(ValueAsOf(ind.adapter, KeyOf(def, req), candles, t)) else Err(Invalid)
  }

  /** Positional arguments take the parameter names in order; surplus arguments are ignored. */
  function Positional(names: seq<Name>, args: seq<real>, n: nat): Params
    requires n <= |args|
  {
    if n == 0 then map[]
    else if n - 1 < |names| then Positional(names, args, n - 1)[names[n - 1] := args[n - 1]]
    else Positional(names, args, n - 1)
  }

  /** The legacy scalar `value`: absent for an unknown name, a refused request or a compound value. */
  function LegacyAnswer(ind: Indicators, candles: seq<Bar>, t: nat, name: Name, args: seq<real>): Option<real>
    requires t < |candles|
  {
    match Find(ind.catalog, name)
    case None => None
    case Some(def) => ScalarOf(QueryAnswer(ind, candles, t, Request(name, Positional(def.paramNames, args, |args|), None)))
  }

  function ScalarOf(r: Result<Option<Value>, Refusal>): Option<real> {
    match r
    case Ok(Some(Scalar(x))) => Some(x)
    case _ => None
  }

  /** Neither accessor depends on a candle after `t`. */
  lemma IndicatorsAreLocal(ind: Indicators, a: seq<Bar>, b: seq<Bar>, t: nat, req: Request, name: Name, args: seq<real>)
    requires t < |a| && t < |b| && a[..t + 1] == b[..t + 1]
    ensures QueryAnswer(ind, a, t, req) == QueryAnswer(ind, b, t, req)
    ensures LegacyAnswer(ind, a, t, name, args) == LegacyAnswer(ind, b, t, name, args)
  {
    hide Accepts;
    var def := Find(ind.catalog, req.name);
    if def.Some? {
      FedIsLocal(ind.adapter, KeyOf(def.value, req), a, b, t + 1);
    }
    var legacy := Find(ind.catalog, name);
    if legacy.Some? {
      var asked := Request(name, Positional(legacy.value.paramNames, args, |args|), None);
      FedIsLocal(ind.adapter, KeyOf(legacy.value, asked), a, b, t + 1);
    }
  }

  // ---------------------------------------------------------------- the engine

  const VALUE_CACHE_PER_KEY: nat := 8

  /** An instance together with the last bar it was fed, `-1` before the first. */
  datatype Stream = Stream(instance: Instance, fedUpTo: int)
  datatype Cached = Cached(bar: nat, value: Option<Value>)

  function Lookup(bucket: seq<Cached>, t: nat): (r: Option<Cached>)
    ensures r.Some? ==> r.value in bucket && r.value.bar == t
  {
    if bucket == [] then None
    else if bucket[0].bar == t then Some(bucket[0])
    else Lookup(bucket[1..], t)
  }

  ghost predicate StreamOk(adapter: Adapter, candles: seq<Bar>, key: Key, s: Stream) {
    -1 <= s.fedUpTo < |candles| && s.instance == Fed(adapter, key, candles, s.fedUpTo + 1)
  }

  ghost predicate BucketOk(adapter: Adapter, candles: seq<Bar>, key: Key, bucket: seq<Cached>) {
    |bucket| <= VALUE_CACHE_PER_KEY &&
    forall i :: 0 <= i < |bucket| ==> bucket[i].bar < |candles| && bucket[i].value == ValueAsOf(adapter, key, candles, bucket[i].bar)
  }

  ghost predicate VerdictOk(catalog: seq<Definition>, key: Key, accepted: bool) {
    Find(catalog, key.name).Some? && (accepted <==> AcceptsKey(Find(catalog, key.name).value, key))
  }

  /** The bucket after a new value: the oldest entry goes when there are too many. */
  function Remember(bucket: seq<Cached>, entry: Cached): seq<Cached> {
    var grown := bucket + [entry];
    if |grown| > VALUE_CACHE_PER_KEY then grown[1..] else grown
  }

  lemma RememberOk(adapter: Adapter, candles: seq<Bar>, key: Key, bucket: seq<Cached>, t: nat)
    requires t < |candles| && BucketOk(adapter, candles, key, bucket)
    ensures BucketOk(adapter, candles, key, Remember(bucket, Cached(t, ValueAsOf(adapter, key, candles, t))))
  {
    hide ValueAsOf;
  }

  class IndicatorEngine {
    const candles: seq<Bar>
    const ind: Indicators
    var streams: map<Key, Stream>
    var verdicts: map<Key, bool>
    var values: map<Key, seq<Cached>>

    /** Every instance has been fed exactly the candles it says, every remembered value is the value of its
        bar, every remembered verdict is right, and no bucket is over its limit. */
    ghost predicate Valid() reads this {
      WellFormed(ind.catalog) &&
      (forall k :: k in streams ==> StreamOk(ind.adapter, candles, k, streams[k])) &&
      (forall k :: k in values ==> BucketOk(ind.adapter, candles, k, values[k])) &&
      (forall k :: k in verdicts ==> VerdictOk(ind.catalog, k, verdicts[k]))
    }

    constructor (candles: seq<Bar>, ind: Indicators)
      requires WellFormed(ind.catalog)
      ensures Valid() && this.candles == candles && this.ind == ind
    {
      this.candles, this.ind := candles, ind;
      streams, verdicts, values := map[], map[], map[];
    }

    /** Resolution with the verdict remembered by key. */
    method Resolve(req: Request) returns (r: Result<Key, Refusal>)
      requires Valid()
      modifies this`verdicts
      ensures Valid()
      ensures match Find(ind.catalog, req.name)
              case None => r == Err(Unsupported)
              case Some(def) => r == if Accepts(def, req) then Ok(KeyOf(def, req)) else Err(Invalid)
    {
      hide StreamOk, BucketOk, Accepts, AcceptsKey, DefaultsFine;
      var found := Find(ind.catalog, req.name);
      if found.None? { return Err(Unsupported); }
      var def := found.value;
      var key := KeyOf(def, req);
      VerdictByKey(def, req);
      if key !in verdicts {
        verdicts := verdicts[key := Accepts(def, req)];
      }
      r := if verdicts[key] then Ok(key) else Err(Invalid);
    }

    /** Feed the kept instance forward to bar `t`. */
    method FeedTo(key: Key, t: nat) returns (value: Option<Value>)
      requires Valid() && key in streams && streams[key].fedUpTo <= t < |candles|
      modifies this`streams
      ensures Valid() && value == ValueAsOf(ind.adapter, key, candles, t)
    {
      hide BucketOk, VerdictOk, WellFormed;
      var instance, i := streams[key].instance, streams[key].fedUpTo + 1;
      assert StreamOk(ind.adapter, candles, key, streams[key]);
      while i <= t
        invariant 0 <= i <= t + 1 && instance == Fed(ind.adapter, key, candles, i)
      {
        instance := ind.adapter.update(instance, candles[i]);
        i := i + 1;
      }
      streams := streams[key := Stream(instance, t)];
      value := ind.adapter.value(instance);
    }

    /** A bar the kept instance has passed: a fresh instance is fed from the start. */
    method Replay(key: Key, t: nat) returns (value: Option<Value>)
      requires t < |candles|
      ensures value == ValueAsOf(ind.adapter, key, candles, t)
    {
      var instance, i := ind.adapter.create(key), 0;
      while i <= t
        invariant 0 <= i <= t + 1 && instance == Fed(ind.adapter, key, candles, i)
      {
        instance := ind.adapter.update(instance, candles[i]);
        i := i + 1;
      }
      value := ind.adapter.value(instance);
    }

    /** The value of an accepted key: from the bucket, from the kept instance, or by replay. */
    method ValueOfKey(t: nat, key: Key) returns (value: Option<Value>)
      requires Valid() && t < |candles|
      modifies this`streams, this`values
      ensures Valid() && value == ValueAsOf(ind.adapter, key, candles, t)
    {
      hide ValueAsOf, VerdictOk, WellFormed, Lookup;
      var bucket := if key in values then values[key] else [];
      var hit := Lookup(bucket, t);
      if hit.Some? { return hit.value.value; }
      if key !in streams {
        streams := streams[key := Stream(ind.adapter.create(key), -1)];
      }
      if t >= streams[key].fedUpTo {
        value := FeedTo(key, t);
      } else {
        value := Replay(key, t);
      }
      RememberOk(ind.adapter, candles, key, bucket, t);
      hide BucketOk, StreamOk, Remember;
      values := values[key := Remember(bucket, Cached(t, value))];
    }

    /** `queryAt`: whatever was asked before, at whatever bars, and whatever was evicted, the answer is that of
        the candles up to `t`. */
    method QueryAt(t: nat, req: Request) returns (r: Result<Option<Value>, Refusal>)
      requires Valid() && t < |candles|
      modifies this
      ensures Valid() && r == QueryAnswer(ind, candles, t, req)
    {
      hide StreamOk, BucketOk, VerdictOk, WellFormed, Accepts, ValueAsOf;
      var resolved := Resolve(req);
      if resolved.Err? { return Err(resolved.error); }
      var value := ValueOfKey(t, resolved.value);
      return Ok(value);
    }

    /** `valueAt`, the legacy scalar accessor, which never throws. */
    method ValueAt(t: nat, name: Name, args: seq<real>) returns (r: Option<real>)
      requires Valid() && t < |candles|
      modifies this
      ensures Valid() && r == LegacyAnswer(ind, candles, t, name, args)
    {
      hide StreamOk, BucketOk, VerdictOk, WellFormed, Accepts, ValueAsOf, QueryAnswer;
      var found := Find(ind.catalog, name);
      if found.None? { return None; }
      var answer := QueryAt(t, Request(name, Positional(found.value.paramNames, args, |args|), None));
      r := ScalarOf(answer);
    }
  }
}
