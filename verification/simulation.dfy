/** The simulation engine (simulationService): the preset scenario table, the
    payload handed to the intelligence service, and the impact deltas between
    the current analysis and the simulated state. */
module Simulation {
  import opened Wrappers
  import opened Numbers
  import opened Domain

  datatype Scenario = Scenario(description: string, adjustment: real)

  /** `{ action, scenario }` as the engine receives it. */
  datatype SimulationParams = SimulationParams(action: string, scenario: Scenario)

  /** The payload sent to the intelligence service's simulation endpoint. */
  datatype SimulationData = SimulationData(userId: UserId, simulationType: string, parameters: Scenario)

  /** The fields of the intelligence service's simulation reply the engine reads. */
  datatype SimulatedState = SimulatedState(
    healthScore: real,
    riskScore: real,
    projectedValue: real,
    recommendations: Option<seq<string>>)

  datatype Impact = Impact(healthScoreChange: real, valueChange: real, riskChange: real, diversificationChange: real)

  datatype SimulationOutcome = SimulationOutcome(
    currentState: Analysis,
    simulatedState: SimulatedState,
    impactAnalysis: Impact,
    recommendations: seq<string>)

  const StressTest: string := "stress_test"

  const ScenarioKeys: set<string> := {"market_crash", "market_boom", "high_inflation", "sector_specific"}

  /** The preset table, looked up by its own keys only. */
  function LookupScenario(key: string): (r: Option<Scenario>)
    ensures r.Some? <==> key in ScenarioKeys
    ensures key == "market_crash" ==> r == Some(Scenario("Market downturn (-20%)", -0.2))
    ensures key == "market_boom" ==> r == Some(Scenario("Market growth (+20%)", 0.2))
    ensures key == "high_inflation" ==> r == Some(Scenario("High inflation scenario", -0.1))
    ensures key == "sector_specific" ==> r == Some(Scenario("Sector-specific event", -0.15))
  {
    if key == "market_crash" then Some(Scenario("Market downturn (-20%)", -0.2))
    else if key == "market_boom" then Some(Scenario("Market growth (+20%)", 0.2))
    else if key == "high_inflation" then Some(Scenario("High inflation scenario", -0.1))
    else if key == "sector_specific" then Some(Scenario("Sector-specific event", -0.15))
    else None
  }

  /** Every preset is a downturn except the boom, and no preset moves the
      market by more than a fifth. */
  lemma PresetAdjustments(key: string)
    requires key in ScenarioKeys
    ensures -0.2 <= LookupScenario(key).value.adjustment <= 0.2
    ensures LookupScenario(key).value.adjustment > 0.0 <==> key == "market_boom"
  {
  }

  /** Each delta, added to the current value, gives the simulated value; an
      unknown current risk score counts as 0; diversification never changes. */
  function CalculateImpact(current: Analysis, simulated: SimulatedState): (i: Impact)
    ensures current.healthScore as real + i.healthScoreChange == simulated.healthScore
    ensures current.basicMetrics.totalValue + i.valueChange == simulated.projectedValue
    ensures JsOr(current.aiAnalysis.riskScore, 0.0) + i.riskChange == simulated.riskScore
    ensures i.diversificationChange == 0.0
  {
    Impact(
      simulated.healthScore - current.healthScore as real,
      simulated.projectedValue - current.basicMetrics.totalValue,
      simulated.riskScore - JsOr(current.aiAnalysis.riskScore, 0.0),
      0.0)
  }

  /** A simulated state equal to the current one has no impact. */
  lemma NoChangeNoImpact(current: Analysis, simulated: SimulatedState)
    requires simulated.healthScore == current.healthScore as real
    requires simulated.projectedValue == current.basicMetrics.totalValue
    requires simulated.riskScore == JsOr(current.aiAnalysis.riskScore, 0.0)
    ensures CalculateImpact(current, simulated) == Impact(0.0, 0.0, 0.0, 0.0)
  {
  }

  /** `runPortfolioSimulation`: the intelligence service is called first and
      the current analysis second; either failure propagates unchanged. */
  function RunPortfolioSimulation(
    userId: UserId, params: SimulationParams,
    simulate: SimulationData -> Result<SimulatedState, Error>,
    analyse: UserId -> Result<Analysis, Error>)
    : (r: Result<SimulationOutcome, Error>)
    ensures var sent := SimulationData(userId, params.action, params.scenario);
      && (simulate(sent).Failure? ==> r == Failure(simulate(sent).error))
      && (simulate(sent).Success? && analyse(userId).Failure? ==> r == Failure(analyse(userId).error))
      && (r.Success? <==> simulate(sent).Success? && analyse(userId).Success?)
      && (r.Success? ==> r.value.simulatedState == simulate(sent).value)
    ensures r.Success? ==> r.value.currentState == analyse(userId).value
    ensures r.Success? ==> r.value.impactAnalysis == CalculateImpact(r.value.currentState, r.value.simulatedState)
    ensures r.Success? && r.value.simulatedState.recommendations.None? ==> r.value.recommendations == []
    ensures r.Success? && r.value.simulatedState.recommendations.Some? ==>
      r.value.recommendations == r.value.simulatedState.recommendations.value
  {
    var simulationData := SimulationData(userId, params.action, params.scenario);
    var simulated :- simulate(simulationData);
    var current :- analyse(userId);
    Success(SimulationOutcome(
      current, simulated, CalculateImpact(current, simulated),
      match simulated.recommendations case Some(rs) => rs case None => []))
  }

  /** `runWhatIfScenario`: an unknown key fails with 'Invalid scenario'
      whatever the collaborators would do; a known key is forwarded as a
      stress test carrying its table entry unchanged. */
  function RunWhatIfScenario(
    userId: UserId, key: string,
    simulate: SimulationData -> Result<SimulatedState, Error>,
    analyse: UserId -> Result<Analysis, Error>)
    : (r: Result<SimulationOutcome, Error>)
    ensures key !in ScenarioKeys ==> r == Failure(InvalidScenario)
    ensures key in ScenarioKeys ==>
      var sent := SimulationData(userId, StressTest, LookupScenario(key).value);
      && (simulate(sent).Failure? ==> r == Failure(simulate(sent).error))
      && (r.Success? <==> simulate(sent).Success? && analyse(userId).Success?)
      && (r.Success? ==> r.value.simulatedState == simulate(sent).value)
    ensures key in ScenarioKeys ==>
      r == RunPortfolioSimulation(userId, SimulationParams(StressTest, LookupScenario(key).value), simulate, analyse)
  {
    match LookupScenario(key)
    case None => Failure(InvalidScenario)
    case Some(scenario) => RunPortfolioSimulation(userId, SimulationParams(StressTest, scenario), simulate, analyse)
  }

  // ------------------------------------------- the guard as the source writes it

  /** What `scenarios[key]` reads from the object literal: one of its own
      entries, a property inherited from `Object.prototype` (all of them
      truthy), or `undefined`. */
  datatype PropertyRead = Own(scenario: Scenario) | Inherited(name: string) | Undefined

  const ObjectPrototypeProperties: set<string> := {
    "constructor", "hasOwnProperty", "isPrototypeOf", "propertyIsEnumerable",
    "toLocaleString", "toString", "valueOf", "__proto__",
    "__defineGetter__", "__defineSetter__", "__lookupGetter__", "__lookupSetter__"}

  function ScenarioPropertyAsWritten(key: string): (r: PropertyRead)
    ensures r.Own? <==> key in ScenarioKeys
    ensures r.Undefined? <==> key !in ScenarioKeys && key !in ObjectPrototypeProperties
  {
    match LookupScenario(key)
    case Some(s) => Own(s)
    case None => if key in ObjectPrototypeProperties then Inherited(key) else Undefined
  }

  /** `if (!selectedScenario) throw ...` on the value read above. */
  predicate PassesScenarioGuardAsWritten(key: string)
  {
    !ScenarioPropertyAsWritten(key).Undefined?
  }

  /** As written, a key such as "constructor" is not a preset yet passes the
      guard, so the intelligence service is called with an inherited function
      as the scenario instead of failing with 'Invalid scenario'. */
  lemma InheritedKeyPassesGuard()
    ensures PassesScenarioGuardAsWritten("constructor")
    ensures "constructor" !in ScenarioKeys
    ensures RunWhatIfScenario("u", "constructor", _ => Failure(ServiceFailed("")), _ => Failure(ServiceFailed("")))
         == Failure(InvalidScenario)
  {
  }

  /** The guard as written admits exactly the presets plus the inherited
      property names; the corrected lookup admits the presets only. */
  lemma GuardAsWrittenAdmits(key: string)
    ensures PassesScenarioGuardAsWritten(key) <==> key in ScenarioKeys || key in ObjectPrototypeProperties
    ensures LookupScenario(key).Some? <==> key in ScenarioKeys
  {
  }
}
