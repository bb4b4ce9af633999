/** Cost tracking of one session: per-model aggregates against totals. Costs are real numbers. */
module Costs {
  datatype Tokens = Tokens(input: int, output: int, reasoning: int, cacheRead: int, cacheWrite: int)

  datatype Usage = Usage(cost: real, savings: real, tokens: Tokens, steps: int)

  datatype Step = Step(model: string, cost: real, savings: real, tokens: Tokens, estimated: bool)

  /** `cacheInput` counts the cache tokens, which are not part of the input tokens. */
  datatype Aggregate = Aggregate(usage: Usage, cacheInput: int)

  /** A line of the snapshot. */
  datatype ModelUsage = ModelUsage(model: string, usage: Usage, cacheRate: real)

  const NONE := Usage(0.0, 0.0, Tokens(0, 0, 0, 0, 0), 0)

  function PlusTokens(a: Tokens, b: Tokens): Tokens {
    Tokens(a.input + b.input, a.output + b.output, a.reasoning + b.reasoning, a.cacheRead + b.cacheRead,
        a.cacheWrite + b.cacheWrite)
  }

  function Plus(a: Usage, b: Usage): Usage {
    Usage(a.cost + b.cost, a.savings + b.savings, PlusTokens(a.tokens, b.tokens), a.steps + b.steps)
  }

  function UsageOf(s: Step): Usage {
    Usage(s.cost, s.savings, s.tokens, 1)
  }

  // ----- what the figures mean -----

  function Total(steps: seq<Step>): Usage {
    if steps == [] then NONE else Plus(Total(steps[..|steps| - 1]), UsageOf(steps[|steps| - 1]))
  }

  function TotalOf(steps: seq<Step>, model: string): Usage {
    if steps == [] then NONE
    else
      var last := steps[|steps| - 1];
      if last.model == model then Plus(TotalOf(steps[..|steps| - 1], model), UsageOf(last))
          else TotalOf(steps[..|steps| - 1], model)
  }

  function Models(steps: seq<Step>): set<string> {
    set i | 0 <= i < |steps| :: steps[i].model
  }

  function SumOver(steps: seq<Step>, models: seq<string>): Usage {
    if models == [] then NONE else Plus(SumOver(steps, models[..|models| - 1]), TotalOf(steps, models[|models| - 1]))
  }

  predicate Distinct(s: seq<string>) {
    forall i, j :: 0 <= i < j < |s| ==> s[i] != s[j]
  }

  lemma {:induction false} OneMoreStep(steps: seq<Step>, s: Step, models: seq<string>)
    requires Distinct(models)
    ensures SumOver(steps + [s], models) == if s.model in models then Plus(SumOver(steps, models), UsageOf(s))
        else SumOver(steps, models)
  {
    if models != [] {
      var front, m := models[..|models| - 1], models[|models| - 1];
      OneMoreStep(steps, s, front);
      assert (steps + [s])[..|steps|] == steps;
      assert models == front + [m];
      assert m !in front;
    }
  }

  lemma {:induction false} NoSteps(models: seq<string>)
    ensures SumOver([], models) == NONE
  {
    if models != [] {
      NoSteps(models[..|models| - 1]);
    }
  }

  /** For every sequence of steps, the figures of the models, in any order, add up to the totals: cost,
      savings, every class of tokens and the number of steps. */
  lemma {:induction false} ModelsAddUp(steps: seq<Step>, models: seq<string>)
    requires Distinct(models) && forall m :: m in Models(steps) ==> m in models
    ensures SumOver(steps, models) == Total(steps)
  {
    if steps == [] {
      NoSteps(models);
    } else {
      var front, s := steps[..|steps| - 1], steps[|steps| - 1];
      assert steps == front + [s];
      assert s.model in Models(steps);
      forall m | m in Models(front)
        ensures m in models
      {
        var i :| 0 <= i < |front| && front[i].model == m;
        assert steps[i].model == m;
      }
      ModelsAddUp(front, models);
      OneMoreStep(front, s, models);
    }
  }

  predicate NonNegative(t: Tokens) {
    t.input >= 0 && t.output >= 0 && t.reasoning >= 0 && t.cacheRead >= 0 && t.cacheWrite >= 0
  }

  predicate AllNonNegative(steps: seq<Step>) {
    forall i :: 0 <= i < |steps| ==> NonNegative(steps[i].tokens)
  }

  lemma {:induction false} TotalsNonNegative(steps: seq<Step>, model: string)
    requires AllNonNegative(steps)
    ensures NonNegative(TotalOf(steps, model).tokens)
  {
    if steps != [] {
      TotalsNonNegative(steps[..|steps| - 1], model);
    }
  }

  /** The cached share of everything a model was given to read. */
  function CacheRate(a: Aggregate): real {
    var inputTotal := a.usage.tokens.input + a.cacheInput;
    if inputTotal > 0 then a.usage.tokens.cacheRead as real / inputTotal as real else 0.0
  }

  function AggregateOf(u: Usage): Aggregate {
    Aggregate(u, u.tokens.cacheRead + u.tokens.cacheWrite)
  }

  lemma Share(p: real, q: real)
    requires 0.0 <= p <= q && q > 0.0
    ensures 0.0 <= p / q <= 1.0
  {
    assert (1.0 - p / q) * q == q - p;
  }

  /** Every reported rate is a share. */
  lemma RateIsAShare(steps: seq<Step>, model: string)
    requires AllNonNegative(steps)
    ensures 0.0 <= CacheRate(AggregateOf(TotalOf(steps, model))) <= 1.0
  {
    TotalsNonNegative(steps, model);
    RateOf(AggregateOf(TotalOf(steps, model)));
  }

  lemma RateOf(a: Aggregate)
    requires NonNegative(a.usage.tokens) && a.cacheInput == a.usage.tokens.cacheRead + a.usage.tokens.cacheWrite
    ensures 0.0 <= CacheRate(a) <= 1.0
  {
    var inputTotal := a.usage.tokens.input + a.cacheInput;
    if inputTotal > 0 {
      Share(a.usage.tokens.cacheRead as real, inputTotal as real);
    }
  }

  // ----- the tracker -----

  class SessionState {
    var models: map<string, Aggregate>
    var totals: Usage
    var estimated: bool
    ghost var steps: seq<Step>

    ghost predicate Valid()
      reads this
    {
      && totals == Total(steps) && Tracks(models, steps)
      && estimated == AnyEstimated(steps)
    }

    constructor ()
      ensures Valid() && steps == []
    {
      models, totals, estimated, steps := map[], NONE, false, [];
    }

    method RecordStep(s: Step)
      requires Valid()
      modifies this
      ensures Valid() && steps == old(steps) + [s]
    {
      TracksMore(models, steps, s);
      TotalPlus(steps, s);
      RecordModel(s);
      totals := Plus(totals, UsageOf(s));
      if s.estimated {
        estimated := true;
      }
      steps := steps + [s];
    }

    /** The aggregate of the step's model. */
    method RecordModel(s: Step)
      modifies `models
      ensures models == Recorded(old(models), s)
    {
      var cached := s.tokens.cacheRead + s.tokens.cacheWrite;
      if s.model in models {
        var ma := models[s.model];
        models := models[s.model := Aggregate(Plus(ma.usage, UsageOf(s)), ma.cacheInput + cached)];
      } else {
        models := models[s.model := Aggregate(UsageOf(s), cached)];
      }
    }

    /** The models by falling cost. The sum of their figures is the totals; rates are shares. */
    method Snapshot() returns (lines: seq<ModelUsage>)
      requires Valid()
      ensures Distinct(Names(lines)) && forall m :: m in Names(lines) <==> m in models
      ensures forall i :: 0 <= i < |lines| ==> lines[i].usage == TotalOf(steps, lines[i].model)
      ensures forall i, j :: 0 <= i < j < |lines| ==> lines[i].usage.cost >= lines[j].usage.cost
      ensures SumOver(steps, Names(lines)) == totals
      ensures AllNonNegative(steps) ==> forall i :: 0 <= i < |lines| ==> 0.0 <= lines[i].cacheRate <= 1.0
    {
      lines := [];
      var todo := models.Keys;
      while todo != {}
        invariant todo <= models.Keys && LinesOk(models, models.Keys - todo, lines)
        decreases |todo|
      {
        var m :| m in todo;
        assert models.Keys - (todo - {m}) == models.Keys - todo + {m};
        lines := AddLine(models.Keys - todo, lines, m);
        todo := todo - {m};
      }
      SnapshotOk(models, steps, lines);
    }

    /** Puts the line of one more model in its place. */
    method AddLine(ghost done: set<string>, lines: seq<ModelUsage>, m: string) returns (more: seq<ModelUsage>)
      requires LinesOk(models, done, lines) && m in models && m !in done
      ensures LinesOk(models, done + {m}, more)
    {
      var line := Line(m, models[m]);
      var pos := 0;
      while pos < |lines| && lines[pos].usage.cost >= line.usage.cost
        invariant 0 <= pos <= |lines| && forall i :: 0 <= i < pos ==> lines[i].usage.cost >= line.usage.cost
      {
        pos := pos + 1;
      }
      LinesMore(models, done, lines, pos, m);
      more := lines[..pos] + [line] + lines[pos..];
    }
  }

  /** The aggregates are those of the steps. */
  ghost predicate Tracks(models: map<string, Aggregate>, steps: seq<Step>) {
    models.Keys == Models(steps) && forall m :: m in models ==> models[m] == AggregateOf(TotalOf(steps, m))
  }

  predicate AnyEstimated(steps: seq<Step>) {
    steps != [] && (steps[|steps| - 1].estimated || AnyEstimated(steps[..|steps| - 1]))
  }

  lemma TotalPlus(steps: seq<Step>, s: Step)
    ensures Total(steps + [s]) == Plus(Total(steps), UsageOf(s))
        && AnyEstimated(steps + [s]) == (AnyEstimated(steps) || s.estimated)
  {
    assert (steps + [s])[..|steps|] == steps;
  }

  lemma TotalOfPlus(steps: seq<Step>, s: Step, m: string)
    ensures TotalOf(steps + [s], m) == if s.model == m then Plus(TotalOf(steps, m), UsageOf(s)) else TotalOf(steps, m)
  {
    assert (steps + [s])[..|steps|] == steps;
  }

  function Recorded(models: map<string, Aggregate>, s: Step): map<string, Aggregate> {
    var cached := s.tokens.cacheRead + s.tokens.cacheWrite;
    models[s.model := if s.model in models
        then Aggregate(Plus(models[s.model].usage, UsageOf(s)), models[s.model].cacheInput + cached)
                      else Aggregate(UsageOf(s), cached)]
  }

  lemma TracksMore(models: map<string, Aggregate>, steps: seq<Step>, s: Step)
    requires Tracks(models, steps)
    ensures Tracks(Recorded(models, s), steps + [s])
  {
    MoreModels(steps, s);
    forall m | m in Recorded(models, s)
      ensures Recorded(models, s)[m] == AggregateOf(TotalOf(steps + [s], m))
    {
      TotalOfPlus(steps, s, m);
      if m !in models {
        NeverUsed(steps, m);
      }
    }
  }

  /** The lines of some of the models, by falling cost. */
  predicate LinesOk(models: map<string, Aggregate>, done: set<string>, lines: seq<ModelUsage>) {
    && Distinct(Names(lines)) && done <= models.Keys && (forall m :: m in done ==> m in Names(lines))
    && (forall i :: 0 <= i < |lines| ==>
        lines[i].model in done && lines[i] == Line(lines[i].model, models[lines[i].model]))
    && forall i, j :: 0 <= i < j < |lines| ==> lines[i].usage.cost >= lines[j].usage.cost
  }

  lemma LinesMore(models: map<string, Aggregate>, done: set<string>, lines: seq<ModelUsage>, pos: nat, m: string)
    requires LinesOk(models, done, lines) && m in models && m !in done && pos <= |lines|
    requires forall i :: 0 <= i < pos ==> lines[i].usage.cost >= models[m].usage.cost
    requires pos < |lines| ==> lines[pos].usage.cost < models[m].usage.cost
    ensures LinesOk(models, done + {m}, lines[..pos] + [Line(m, models[m])] + lines[pos..])
  {
    var line := Line(m, models[m]);
    var all := lines[..pos] + [line] + lines[pos..];
    assert m !in Names(lines) by {
      assert forall i :: 0 <= i < |lines| ==> Names(lines)[i] == lines[i].model;
    }
    InsertName(lines, pos, line);
    FallsStill(lines, pos, line);
    forall i | 0 <= i < |all|
      ensures all[i].model in done + {m} && all[i] == Line(all[i].model, models[all[i].model])
    {
      assert all[i] == if i < pos then lines[i] else if i == pos then line else lines[i - 1];
    }
  }

  lemma FallsStill(lines: seq<ModelUsage>, pos: nat, line: ModelUsage)
    requires pos <= |lines| && forall i, j :: 0 <= i < j < |lines| ==> lines[i].usage.cost >= lines[j].usage.cost
    requires forall i :: 0 <= i < pos ==> lines[i].usage.cost >= line.usage.cost
    requires pos < |lines| ==> lines[pos].usage.cost < line.usage.cost
    ensures var all := lines[..pos] + [line] + lines[pos..];
            forall i, j :: 0 <= i < j < |all| ==> all[i].usage.cost >= all[j].usage.cost
  {
  }

  lemma SnapshotOk(models: map<string, Aggregate>, steps: seq<Step>, lines: seq<ModelUsage>)
    requires Tracks(models, steps) && LinesOk(models, models.Keys, lines)
    ensures forall m :: m in Names(lines) <==> m in models
    ensures forall i :: 0 <= i < |lines| ==> lines[i].usage == TotalOf(steps, lines[i].model)
    ensures SumOver(steps, Names(lines)) == Total(steps)
    ensures AllNonNegative(steps) ==> forall i :: 0 <= i < |lines| ==> 0.0 <= lines[i].cacheRate <= 1.0
  {
    assert forall i :: 0 <= i < |lines| ==> Names(lines)[i] == lines[i].model;
    ModelsAddUp(steps, Names(lines));
    forall i | 0 <= i < |lines| && AllNonNegative(steps)
      ensures 0.0 <= lines[i].cacheRate <= 1.0
    {
      RateIsAShare(steps, lines[i].model);
    }
  }

  function Line(model: string, a: Aggregate): ModelUsage {
    ModelUsage(model, a.usage, CacheRate(a))
  }

  function Names(lines: seq<ModelUsage>): seq<string> {
    seq(|lines|, i requires 0 <= i < |lines| => lines[i].model)
  }

  lemma InsertName(lines: seq<ModelUsage>, pos: nat, line: ModelUsage)
    requires pos <= |lines| && Distinct(Names(lines)) && line.model !in Names(lines)
    ensures var all := lines[..pos] + [line] + lines[pos..];
            Distinct(Names(all)) && forall m :: m in Names(all) <==> m in Names(lines) || m == line.model
  {
    var a, b := Names(lines[..pos]), Names(lines[pos..]);
    assert Names(lines) == a + b;
    assert Names(lines[..pos] + [line] + lines[pos..]) == a + [line.model] + b;
    InsertDistinct(a, b, line.model);
  }

  lemma InsertDistinct(a: seq<string>, b: seq<string>, x: string)
    requires Distinct(a + b) && x !in a + b
    ensures Distinct(a + [x] + b) && forall m :: m in a + [x] + b <==> m in a + b || m == x
  {
    var all := a + [x] + b;
    forall i, j | 0 <= i < j < |all|
      ensures all[i] != all[j]
    {
      var p := if i < |a| then i else i - 1;
      var q := if j < |a| then j else j - 1;
      assert i != |a| ==> all[i] == (a + b)[p];
      assert j != |a| ==> all[j] == (a + b)[q];
      assert i == |a| ==> all[j] in a + b;
      assert j == |a| ==> all[i] in a + b;
    }
  }

  lemma {:induction false} NeverUsed(steps: seq<Step>, model: string)
    requires model !in Models(steps)
    ensures TotalOf(steps, model) == NONE
  {
    if steps != [] {
      var front := steps[..|steps| - 1];
      assert steps[|steps| - 1].model in Models(steps);
      forall m | m in Models(front)
        ensures m in Models(steps)
      {
        var i :| 0 <= i < |front| && front[i].model == m;
        assert steps[i].model == m;
      }
      NeverUsed(front, model);
    }
  }

  lemma MoreModels(steps: seq<Step>, s: Step)
    ensures Models(steps + [s]) == Models(steps) + {s.model}
  {
    var all := steps + [s];
    forall m
      ensures m in Models(all) <==> m in Models(steps) || m == s.model
    {
      if m in Models(steps) {
        var i :| 0 <= i < |steps| && steps[i].model == m;
        assert all[i].model == m;
      }
      assert all[|steps|] == s;
    }
  }
}
