/** Market scenarios for automotive consulting: each scenario carries the
    three default parameters, reads a parameter's value according to its
    type, and compounds a base market size over its time horizon. A bundle
    holds the base, optimistic and pessimistic cases, and the analysis
    functions apply one question to every scenario of a collection. */
module MarketScenarios {
  import opened Wrappers
  import opened Numeric

  datatype ScenarioType = Base | Optimistic | Pessimistic | Disruption | Transformation

  datatype ScenarioParameter = ScenarioParameter(
    name: string,
    baseValue: real,
    optimisticValue: real,
    pessimisticValue: real,
    unit: string,
    description: string)

  datatype MarketScenario = MarketScenario(
    name: string,
    scenarioType: ScenarioType,
    timeHorizon: int,
    probability: real,
    parameters: map<string, ScenarioParameter>)

  /** The parameters every scenario is given, keyed by their identifiers. */
  const DefaultParameters: map<string, ScenarioParameter> := map[
    "ev_adoption_rate" := ScenarioParameter(
      "EV Adoption Rate", 0.25, 0.4, 0.15,
      "% of new car sales", "Annual growth rate of EV adoption"),
    "autonomous_tech_advancement" := ScenarioParameter(
      "Autonomous Tech Advancement", 0.3, 0.5, 0.1,
      "0-1 scale", "Rate of advancement in autonomous technology"),
    "consulting_budget_growth" := ScenarioParameter(
      "Consulting Budget Growth", 0.05, 0.1, -0.02,
      "% annual growth", "Annual growth in consulting budgets")]

  /** The parameter the market size grows by. */
  const BudgetGrowth: string := "consulting_budget_growth"

  /** A new scenario: whatever parameters are passed are replaced by the
      defaults. */
  function NewScenario(name: string, scenarioType: ScenarioType, timeHorizon: int, probability: real,
                       parameters: map<string, ScenarioParameter>): (s: MarketScenario)
    ensures s.name == name && s.scenarioType == scenarioType
    ensures s.timeHorizon == timeHorizon && s.probability == probability
    ensures s.parameters.Keys == {"ev_adoption_rate", "autonomous_tech_advancement", BudgetGrowth}
    ensures s.parameters == DefaultParameters
  {
    MarketScenario(name, scenarioType, timeHorizon, probability, DefaultParameters)
  }

  /** The parameters passed to a new scenario make no difference. */
  lemma ParametersIgnored(name: string, t: ScenarioType, h: int, p: real,
                          given1: map<string, ScenarioParameter>, given2: map<string, ScenarioParameter>)
    ensures NewScenario(name, t, h, p, given1) == NewScenario(name, t, h, p, given2)
  {
  }

  function UnknownParameter(name: string): string
  {
    "Unknown parameter: " + name
  }

  /** The value the scenario's type selects: optimistic and pessimistic
      scenarios read their own values, every other type the base value. */
  function Select(t: ScenarioType, p: ScenarioParameter): (v: real)
    ensures t == Optimistic ==> v == p.optimisticValue
    ensures t == Pessimistic ==> v == p.pessimisticValue
    ensures t != Optimistic && t != Pessimistic ==> v == p.baseValue
  {
    if t == Optimistic then p.optimisticValue
    else if t == Pessimistic then p.pessimisticValue
    else p.baseValue
  }

  /** A parameter's value in the scenario; an unknown name is an error. */
  function GetParameterValue(s: MarketScenario, name: string): (r: Result<real, string>)
    ensures r.Failure? <==> name !in s.parameters
    ensures r.Failure? ==> r.error == UnknownParameter(name)
    ensures r.Success? ==> r.value == Select(s.scenarioType, s.parameters[name])
  {
    if name !in s.parameters then Failure(UnknownParameter(name))
    else Success(Select(s.scenarioType, s.parameters[name]))
  }

  /** The years the market size covers: 2025 to 2025 + horizon inclusive. */
  predicate InHorizon(year: int, horizon: int)
  {
    2025 <= year <= 2025 + horizon
  }

  /** The market size in a year of the horizon: the base compounded once a
      year from 2025. */
  function Compounded(base: real, growth: real, year: int): real
    requires year >= 2025
  {
    base * Pow(1.0 + growth, year - 2025)
  }

  /** The market size per year of the scenario's horizon, grown by its
      budget-growth parameter; an error if it has none. */
  function CalculateMarketSize(s: MarketScenario, base: real): (r: Result<map<int, real>, string>)
    ensures r.Failure? <==> BudgetGrowth !in s.parameters
    ensures r.Failure? ==> r.error == UnknownParameter(BudgetGrowth)
    ensures r.Success? ==> forall y :: y in r.value ==> InHorizon(y, s.timeHorizon)
    ensures r.Success? ==> forall y :: InHorizon(y, s.timeHorizon) ==>
              y in r.value && r.value[y] == Compounded(base, GetParameterValue(s, BudgetGrowth).value, y)
  {
    match GetParameterValue(s, BudgetGrowth)
    case Failure(e) => Failure(e)
    case Success(g) => Success(map y | 2025 <= y <= 2025 + s.timeHorizon :: Compounded(base, g, y))
  }

  /** The first year of a non-negative horizon holds the base size, and
      each later year is the year before grown by the rate. */
  lemma MarketSizeRecurrence(s: MarketScenario, base: real, year: int)
    requires CalculateMarketSize(s, base).Success?
    ensures var m := CalculateMarketSize(s, base).value;
            var g := GetParameterValue(s, BudgetGrowth).value;
            && (s.timeHorizon >= 0 ==> 2025 in m && m[2025] == base)
            && (2025 < year && year in m ==> year - 1 in m && m[year] == m[year - 1] * (1.0 + g))
  {
    var m := CalculateMarketSize(s, base).value;
    var g := GetParameterValue(s, BudgetGrowth).value;
    if s.timeHorizon >= 0 {
      assert InHorizon(2025, s.timeHorizon);
    }
    if 2025 < year && year in m {
      assert InHorizon(year - 1, s.timeHorizon);
      assert Pow(1.0 + g, year - 2025) == (1.0 + g) * Pow(1.0 + g, year - 1 - 2025);
    }
  }

  /** A scenario made by NewScenario always yields a market size. */
  lemma NewScenarioHasMarketSize(name: string, t: ScenarioType, h: int, p: real,
                                 given: map<string, ScenarioParameter>, base: real)
    ensures CalculateMarketSize(NewScenario(name, t, h, p, given), base).Success?
  {
  }

  /** The standard bundle: base case, optimistic and pessimistic, with
      probabilities 0.6, 0.2 and 0.2 and the default five-year horizon. */
  function CreateScenarioBundle(): (b: map<string, MarketScenario>)
    ensures b.Keys == {"base_case", "optimistic", "pessimistic"}
    ensures b["base_case"].scenarioType == Base
    ensures b["optimistic"].scenarioType == Optimistic
    ensures b["pessimistic"].scenarioType == Pessimistic
    ensures forall k :: k in b ==> b[k].parameters == DefaultParameters && b[k].timeHorizon == 5
  {
    map[
      "base_case" := NewScenario("Base Case - Gradual Evolution", Base, 5, 0.6, map[]),
      "optimistic" := NewScenario("Optimistic - Accelerated Transformation", Optimistic, 5, 0.2, map[]),
      "pessimistic" := NewScenario("Pessimistic - Constrained Growth", Pessimistic, 5, 0.2, map[])]
  }

  /** The bundle's probabilities sum to 1. */
  lemma BundleProbabilitiesSumToOne()
    ensures var b := CreateScenarioBundle();
            b["base_case"].probability + b["optimistic"].probability + b["pessimistic"].probability == 1.0
  {
  }

  /** Every default parameter orders its values pessimistic <= base <= optimistic. */
  lemma DefaultsOrdered(name: string)
    requires name in DefaultParameters
    ensures var p := DefaultParameters[name];
            p.pessimisticValue <= p.baseValue <= p.optimisticValue
  {
  }

  /** Across the bundle, every parameter reads lowest in the pessimistic
      case and highest in the optimistic one. */
  lemma BundleValuesOrdered(name: string)
    requires name in DefaultParameters
    ensures var b := CreateScenarioBundle();
            && GetParameterValue(b["pessimistic"], name).Success?
            && GetParameterValue(b["base_case"], name).Success?
            && GetParameterValue(b["optimistic"], name).Success?
            && GetParameterValue(b["pessimistic"], name).value <= GetParameterValue(b["base_case"], name).value
            && GetParameterValue(b["base_case"], name).value <= GetParameterValue(b["optimistic"], name).value
  {
    DefaultsOrdered(name);
  }

  /** A parameter's value in every scenario; an error if any scenario lacks it. */
  function CompareParameter(scenarios: map<string, MarketScenario>, name: string): (r: Result<map<string, real>, string>)
    ensures r.Failure? <==> exists k :: k in scenarios && name !in scenarios[k].parameters
    ensures r.Failure? ==> r.error == UnknownParameter(name)
    ensures r.Success? ==> r.value.Keys == scenarios.Keys
    ensures r.Success? ==> forall k :: k in scenarios ==>
              Success(r.value[k]) == GetParameterValue(scenarios[k], name)
  {
    if exists k :: k in scenarios && name !in scenarios[k].parameters then Failure(UnknownParameter(name))
    else Success(map k | k in scenarios :: GetParameterValue(scenarios[k], name).value)
  }

  /** The market-size table of every scenario; an error if any scenario
      lacks the budget-growth parameter. */
  function SensitivityAnalysis(scenarios: map<string, MarketScenario>, base: real): (r: Result<map<string, map<int, real>>, string>)
    ensures r.Failure? <==> exists k :: k in scenarios && BudgetGrowth !in scenarios[k].parameters
    ensures r.Failure? ==> r.error == UnknownParameter(BudgetGrowth)
    ensures r.Success? ==> r.value.Keys == scenarios.Keys
    ensures r.Success? ==> forall k :: k in scenarios ==>
              Success(r.value[k]) == CalculateMarketSize(scenarios[k], base)
  {
    if exists k :: k in scenarios && BudgetGrowth !in scenarios[k].parameters then Failure(UnknownParameter(BudgetGrowth))
    else Success(map k | k in scenarios :: CalculateMarketSize(scenarios[k], base).value)
  }

  /** On the bundle, the budget-growth parameter compares as -0.02, 0.05
      and 0.1 for the pessimistic, base and optimistic cases. */
  lemma BundleBudgetGrowth()
    ensures CompareParameter(CreateScenarioBundle(), BudgetGrowth)
            == Success(map["base_case" := 0.05, "optimistic" := 0.1, "pessimistic" := -0.02])
  {
    var b := CreateScenarioBundle();
    var r := CompareParameter(b, BudgetGrowth);
    assert r.Success?;
    var expected := map["base_case" := 0.05, "optimistic" := 0.1, "pessimistic" := -0.02];
    assert r.value.Keys == expected.Keys;
    assert r.value == expected;
  }
}
