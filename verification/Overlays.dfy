/** What a chain of overlays makes of a decision, told by the answers they give. */
module Overlays {
  import opened Basics
  import opened MarketView
  import opened TradingEngine
  import opened BarLoop

  /** The course of a composition: the answers of the overlays asked, with the module state and the decision
      before each of them and after the last. */
  datatype Course = Course(mods: seq<ModuleState>, decisions: seq<Decision>, answers: seq<Option<OverlayDecision>>)

  /** An answer that ends the composition: a veto, or a patch that does not yield a decision. */
  predicate Stops(answer: Option<OverlayDecision>, d: Decision) {
    answer.Some? && (answer.value.Veto? || (answer.value.Patch? && answer.value.apply(d).Err?))
  }

  /** What an answer makes of the decision before it; only a patch changes it. */
  function Altered(answer: Option<OverlayDecision>, d: Decision): Decision {
    if answer.Some? && answer.value.Patch? && answer.value.apply(d).Ok? then answer.value.apply(d).value else d
  }

  function KindOf(d: OverlayDecision): string {
    match d
    case Pass => "pass"
    case Note(_) => "annotate"
    case Patch(_) => "patch"
    case Veto(_) => "veto"
  }

  /** Overlays `i, i + 1, ...` are asked in turn, each with the state the one before it left, up to the first that stops. */
  ghost predicate Follows(env: Env, overlays: seq<OverlayHook>, i: nat, ctx: Snapshot, t: nat, mod: ModuleState, base: Decision, c: Course)
    requires t < env.Bars() && i <= |overlays|
  {
    var n := |c.answers|;
    i + n <= |overlays| && |c.mods| == |c.decisions| == n + 1 && c.mods[0] == mod && c.decisions[0] == base &&
    (forall j :: 0 <= j < n ==> Interpret(env.view, t, overlays[i + j](c.mods[j], ctx)) == (c.mods[j + 1], c.answers[j])) &&
    (forall j :: 0 <= j < n ==> c.decisions[j + 1] == Altered(c.answers[j], c.decisions[j])) &&
    (forall j :: 0 <= j < n - 1 ==> !Stops(c.answers[j], c.decisions[j])) &&
    (i + n < |overlays| ==> n > 0 && Stops(c.answers[n - 1], c.decisions[n - 1]))
  }

  /** The effects are those of the overlays that answered, in order. */
  function EffectsOf(i: nat, answers: seq<Option<OverlayDecision>>): seq<OverlayEffect>
    decreases |answers|
  {
    if answers == [] then []
    else (if answers[0].Some? then [OverlayEffect(i, KindOf(answers[0].value))] else []) + EffectsOf(i + 1, answers[1..])
  }

  /** The outcome: no decision if the last answer stopped the chain, with the patch's complaint if it was a patch. */
  ghost predicate Outcome(c: Course, mod: ModuleState, comp: Composition)
    requires |c.mods| == |c.decisions| == |c.answers| + 1
  {
    var n := |c.answers|;
    var stopped := n > 0 && Stops(c.answers[n - 1], c.decisions[n - 1]);
    mod == c.mods[n] && comp.final == (if stopped then None else Some(c.decisions[n])) &&
    comp.error == (if stopped && c.answers[n - 1].value.Patch? then Some(c.answers[n - 1].value.apply(c.decisions[n - 1]).error) else None)
  }

  ghost predicate Overlaid(env: Env, overlays: seq<OverlayHook>, ctx: Snapshot, t: nat, m: ModuleState, base: Decision, m': ModuleState,
                           comp: Composition)
    requires t < env.Bars()
  {
    exists c :: Follows(env, overlays, 0, ctx, t, m, base, c) && Outcome(c, m', comp) && comp.effects == EffectsOf(0, c.answers)
  }

  /** One more overlay in front of a course. */
  lemma Prepend(env: Env, overlays: seq<OverlayHook>, i: nat, ctx: Snapshot, t: nat, mod: ModuleState, base: Decision, c: Course)
    returns (r: Course)
    requires t < env.Bars() && i < |overlays|
    requires var (m, answer) := Interpret(env.view, t, overlays[i](mod, ctx));
             !Stops(answer, base) && Follows(env, overlays, i + 1, ctx, t, m, Altered(answer, base), c)
    ensures var (m, answer) := Interpret(env.view, t, overlays[i](mod, ctx));
            Follows(env, overlays, i, ctx, t, mod, base, r) && r == Course([mod] + c.mods, [base] + c.decisions, [answer] + c.answers)
  {
    hide Interpret, Stops, Altered;
    var (m, answer) := Interpret(env.view, t, overlays[i](mod, ctx));
    r := Course([mod] + c.mods, [base] + c.decisions, [answer] + c.answers);
    forall j | 0 <= j < |r.answers|
      ensures Interpret(env.view, t, overlays[i + j](r.mods[j], ctx)) == (r.mods[j + 1], r.answers[j])
      ensures r.decisions[j + 1] == Altered(r.answers[j], r.decisions[j])
      ensures j < |r.answers| - 1 ==> !Stops(r.answers[j], r.decisions[j])
    {
      if j > 0 {
        assert r.answers[j] == c.answers[j - 1] && r.mods[j] == c.mods[j - 1] && r.decisions[j] == c.decisions[j - 1];
        assert overlays[i + j] == overlays[(i + 1) + (j - 1)];
      }
    }
  }

  function Noted(i: nat, answer: Option<OverlayDecision>): seq<OverlayEffect> {
    if answer.None? then [] else [OverlayEffect(i, KindOf(answer.value))]
  }

  /** One overlay of a composition: it goes on with the altered decision, or stops here. */
  lemma ComposeUnfold(env: Env, overlays: seq<OverlayHook>, i: nat, mod: ModuleState, ctx: Snapshot, t: nat, sofar: Decision,
                      effects: seq<OverlayEffect>)
    requires t < env.Bars() && i < |overlays|
    ensures var (m, answer) := Interpret(env.view, t, overlays[i](mod, ctx));
            if Stops(answer, sofar)
            then var (m', comp) := Compose(env, overlays, i, mod, ctx, t, sofar, effects);
                 m' == m && comp.effects == effects + Noted(i, answer) && comp.final == None &&
                 comp.error == if answer.value.Patch? then Some(answer.value.apply(sofar).error) else None
            else Compose(env, overlays, i, mod, ctx, t, sofar, effects) ==
                 Compose(env, overlays, i + 1, m, ctx, t, Altered(answer, sofar), effects + Noted(i, answer))
  {
    var (m, answer) := Interpret(env.view, t, overlays[i](mod, ctx));
    if answer.None? {
      assert effects + Noted(i, answer) == effects;
    }
  }

  lemma {:induction false} ComposeFollows(env: Env, overlays: seq<OverlayHook>, i: nat, mod: ModuleState, ctx: Snapshot, t: nat,
                                          sofar: Decision, effects: seq<OverlayEffect>) returns (c: Course)
    requires t < env.Bars() && i <= |overlays|
    ensures Follows(env, overlays, i, ctx, t, mod, sofar, c)
    ensures var (m, comp) := Compose(env, overlays, i, mod, ctx, t, sofar, effects);
            Outcome(c, m, comp) && comp.effects == effects + EffectsOf(i, c.answers)
    decreases |overlays| - i
  {
    hide Compose, Interpret, Stops, Altered, KindOf, Follows, Outcome;
    if i == |overlays| {
      c := Course([mod], [sofar], []);
      AllAsked(env, overlays, mod, ctx, t, sofar, effects);
    } else {
      ComposeUnfold(env, overlays, i, mod, ctx, t, sofar, effects);
      var (m, answer) := Interpret(env.view, t, overlays[i](mod, ctx));
      if Stops(answer, sofar) {
        c := Course([mod, m], [sofar, Altered(answer, sofar)], [answer]);
        var (m', comp) := Compose(env, overlays, i, mod, ctx, t, sofar, effects);
        StopsHere(env, overlays, i, mod, ctx, t, sofar, comp);
      } else {
        var rest := ComposeFollows(env, overlays, i + 1, m, ctx, t, Altered(answer, sofar), effects + Noted(i, answer));
        c := Prepend(env, overlays, i, ctx, t, mod, sofar, rest);
        EffectsPrepend(i, answer, rest.answers);
        FollowsShape(env, overlays, i + 1, ctx, t, m, Altered(answer, sofar), rest);
        OutcomePrepend(mod, sofar, answer, rest);
      }
    }
  }

  lemma FollowsShape(env: Env, overlays: seq<OverlayHook>, i: nat, ctx: Snapshot, t: nat, mod: ModuleState, base: Decision, c: Course)
    requires t < env.Bars() && i <= |overlays| && Follows(env, overlays, i, ctx, t, mod, base, c)
    ensures |c.mods| == |c.decisions| == |c.answers| + 1 && c.decisions[0] == base
  {
  }

  lemma AllAsked(env: Env, overlays: seq<OverlayHook>, mod: ModuleState, ctx: Snapshot, t: nat, sofar: Decision, effects: seq<OverlayEffect>)
    requires t < env.Bars()
    ensures Follows(env, overlays, |overlays|, ctx, t, mod, sofar, Course([mod], [sofar], []))
    ensures var (m, comp) := Compose(env, overlays, |overlays|, mod, ctx, t, sofar, effects);
            Outcome(Course([mod], [sofar], []), m, comp) && comp.effects == effects + EffectsOf(|overlays|, [])
  {
  }

  lemma StopsHere(env: Env, overlays: seq<OverlayHook>, i: nat, mod: ModuleState, ctx: Snapshot, t: nat, sofar: Decision, comp: Composition)
    requires t < env.Bars() && i < |overlays| && Stops(Interpret(env.view, t, overlays[i](mod, ctx)).1, sofar)
    requires var answer := Interpret(env.view, t, overlays[i](mod, ctx)).1;
             comp.final == None && comp.error == if answer.value.Patch? then Some(answer.value.apply(sofar).error) else None
    ensures var (m, answer) := Interpret(env.view, t, overlays[i](mod, ctx));
            var c := Course([mod, m], [sofar, Altered(answer, sofar)], [answer]);
            Follows(env, overlays, i, ctx, t, mod, sofar, c) && Outcome(c, m, comp) && EffectsOf(i, c.answers) == Noted(i, answer)
  {
    hide Interpret;
    assert [Interpret(env.view, t, overlays[i](mod, ctx)).1][1..] == [];
  }

  lemma EffectsPrepend(i: nat, answer: Option<OverlayDecision>, rest: seq<Option<OverlayDecision>>)
    ensures EffectsOf(i, [answer] + rest) == Noted(i, answer) + EffectsOf(i + 1, rest)
  {
    assert ([answer] + rest)[1..] == rest;
  }

  lemma OutcomePrepend(mod: ModuleState, base: Decision, answer: Option<OverlayDecision>, c: Course)
    requires |c.mods| == |c.decisions| == |c.answers| + 1 && !Stops(answer, base) && c.decisions[0] == Altered(answer, base)
    ensures forall m, comp :: Outcome(c, m, comp) ==> Outcome(Course([mod] + c.mods, [base] + c.decisions, [answer] + c.answers), m, comp)
  {
    hide Stops, Altered;
    var d := Course([mod] + c.mods, [base] + c.decisions, [answer] + c.answers);
    var n := |c.answers|;
    assert d.mods[n + 1] == c.mods[n] && d.decisions[n + 1] == c.decisions[n] && d.decisions[n] == if n > 0 then c.decisions[n - 1] else base;
    assert d.answers[n] == if n > 0 then c.answers[n - 1] else answer;
  }

  /** Composition asks the overlays in order up to the first veto or failed patch and reports what they did. */
  lemma ComposeLaw(env: Env, overlays: seq<OverlayHook>, mod: ModuleState, ctx: Snapshot, t: nat, base: Decision)
    requires t < env.Bars()
    ensures var (m, comp) := Compose(env, overlays, 0, mod, ctx, t, base, []);
            Overlaid(env, overlays, ctx, t, mod, base, m, comp)
  {
    hide Compose, Follows, Outcome;
    var c := ComposeFollows(env, overlays, 0, mod, ctx, t, base, []);
  }
}
