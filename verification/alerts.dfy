/** The alert generator (alertService): confidence-to-severity banding, the
    anomaly-to-alert mapping, the fixed change detector and the batch that is
    assembled and handed to storage. */
module Alerts {
  import opened Wrappers
  import opened Domain
  import opened Helpers

  datatype AlertType = PriceDrop | VolatilitySpike | HealthScoreChange | GoalAlert | Rebalance

  datatype Severity = Low | Medium | High | Critical
  {
    function Rank(): nat
    {
      match this
      case Low => 0
      case Medium => 1
      case High => 2
      case Critical => 3
    }
  }

  /** An entry of the intelligence service's anomaly-detection reply. */
  datatype Anomaly = Anomaly(asset: string, confidence: real, description: string)

  /** An alert as the detectors produce it; the optional fields are the ones
      the alert record does not require. */
  datatype Alert = Alert(
    alertType: AlertType,
    severity: Severity,
    title: string,
    message: string,
    relatedAsset: Option<string>,
    relatedMetric: Option<string>,
    oldValue: Option<real>,
    newValue: Option<real>,
    changePercent: Option<real>,
    metadata: Option<Anomaly>)

  /** `{ ...alert, userId }`: an alert as handed to storage. */
  datatype StoredAlert = StoredAlert(userId: UserId, alert: Alert)

  /** Confidence above 0.8 is high, above 0.6 medium, anything else low. */
  function MapSeverity(confidence: real): (s: Severity)
    ensures s == High <==> confidence > 0.8
    ensures s == Medium <==> 0.6 < confidence <= 0.8
    ensures s == Low <==> confidence <= 0.6
    ensures s != Critical
  {
    if confidence > 0.8 then High
    else if confidence > 0.6 then Medium
    else Low
  }

  /** More confidence never lowers the severity. */
  lemma SeverityMonotone(c1: real, c2: real)
    requires c1 <= c2
    ensures MapSeverity(c1).Rank() <= MapSeverity(c2).Rank()
  {
  }

  /** The alert raised for one anomaly. */
  function AnomalyAlert(a: Anomaly): Alert
  {
    Alert(VolatilitySpike, MapSeverity(a.confidence), "Unusual activity detected in " + a.asset,
      a.description, Some(a.asset), None, None, None, None, Some(a))
  }

  /** A volatility alert for `a`: its title and related asset name the asset,
      it carries the anomaly's description and the anomaly itself, its
      severity is the banding of the anomaly's confidence, and it has no
      related metric, old or new value, or change percentage. */
  predicate Reports(alert: Alert, a: Anomaly)
  {
    && alert.alertType == VolatilitySpike
    && alert.severity == MapSeverity(a.confidence)
    && alert.title == "Unusual activity detected in " + a.asset
    && alert.relatedAsset == Some(a.asset)
    && alert.message == a.description
    && alert.metadata == Some(a)
    && alert.relatedMetric.None? && alert.oldValue.None? && alert.newValue.None? && alert.changePercent.None?
  }

  /** The anomaly detector with a resolved portfolio: a missing portfolio or
      a failing detector yields no alerts, otherwise each anomaly is reported
      by the alert at its own position. */
  function CheckAnomalies(portfolio: Option<Portfolio>, detect: seq<Holding> -> Result<seq<Anomaly>, Error>)
    : (r: seq<Alert>)
    ensures portfolio.None? ==> r == []
    ensures portfolio.Some? && detect(portfolio.value.holdings).Failure? ==> r == []
    ensures portfolio.Some? && detect(portfolio.value.holdings).Success? ==>
      var anomalies := detect(portfolio.value.holdings).value;
      |r| == |anomalies| && forall i :: 0 <= i < |r| ==> Reports(r[i], anomalies[i])
  {
    match portfolio
    case None => []
    case Some(p) =>
      match detect(p.holdings)
      case Failure(_) => []
      case Success(anomalies) => seq(|anomalies|, i requires 0 <= i < |anomalies| => AnomalyAlert(anomalies[i]))
  }

  /** The reported anomalies can be read back from the alerts' metadata. */
  lemma AnomaliesRecoverable(p: Portfolio, detect: seq<Holding> -> Result<seq<Anomaly>, Error>)
    requires detect(p.holdings).Success?
    ensures var r := CheckAnomalies(Some(p), detect);
      seq(|r|, i requires 0 <= i < |r| => r[i].metadata.value) == detect(p.holdings).value
  {
  }

  /** The names the alert service's module imports (its first three lines). */
  const AlertServiceImports: set<string> := {"Alert", "PortfolioService", "AIService"}

  /** The names the module declares itself: its class. */
  const AlertServiceDeclarations: set<string> := {"AlertService"}

  /** The parameters of the CommonJS wrapper around every module. */
  const CommonJsParameters: set<string> := {"exports", "require", "module", "__filename", "__dirname"}

  /** Global names Node.js adds to the language's own: `console`, the only
      global the module reads, and its neighbours. */
  const NodeHostGlobals: set<string> := {
    "console", "process", "Buffer", "global", "globalThis", "setTimeout", "clearTimeout",
    "setInterval", "clearInterval", "setImmediate", "clearImmediate", "queueMicrotask",
    "structuredClone", "fetch", "URL", "URLSearchParams", "TextEncoder", "TextDecoder"}

  /** The language's standard global names. */
  const StandardGlobals: set<string> := {
    "Object", "Function", "Array", "String", "Number", "Boolean", "Symbol", "BigInt",
    "Math", "JSON", "Date", "RegExp", "Error", "TypeError", "RangeError", "ReferenceError",
    "SyntaxError", "Promise", "Map", "Set", "WeakMap", "WeakSet", "Proxy", "Reflect", "Intl",
    "parseInt", "parseFloat", "isNaN", "isFinite", "undefined", "NaN", "Infinity", "eval",
    "encodeURI", "decodeURI", "encodeURIComponent", "decodeURIComponent"}

  /** The globals of the Node.js runtime. The list is not exhaustive; what the
      model relies on is that `Portfolio` is not among them. */
  const NodeGlobals: set<string> := NodeHostGlobals + StandardGlobals

  /** Reading an identifier inside the module, given the host's globals: it
      resolves when the module imports or declares it, when the CommonJS
      wrapper passes it in, or when it is a global; otherwise reading it
      raises a ReferenceError naming it. */
  function Resolve(name: string, globals: set<string>): (r: Result<string, Error>)
    ensures r.Success? <==>
      name in AlertServiceImports || name in AlertServiceDeclarations || name in CommonJsParameters || name in globals
    ensures r.Failure? ==> r.error == UndefinedReference(name)
  {
    if name in AlertServiceImports || name in AlertServiceDeclarations || name in CommonJsParameters || name in globals
    then Success(name)
    else Failure(UndefinedReference(name))
  }

  /** Every identifier the module reads resolves under Node.js except
      `Portfolio`. */
  lemma ModuleReferences()
    ensures Resolve("Alert", NodeGlobals).Success? && Resolve("PortfolioService", NodeGlobals).Success?
    ensures Resolve("AIService", NodeGlobals).Success? && Resolve("AlertService", NodeGlobals).Success?
    ensures Resolve("console", NodeGlobals).Success? && Resolve("module", NodeGlobals).Success?
    ensures Resolve("Portfolio", NodeGlobals) == Failure(UndefinedReference("Portfolio"))
  {
    assert "console" in NodeHostGlobals;
    PortfolioNotGlobal();
  }

  lemma PortfolioNotGlobal()
    ensures "Portfolio" !in AlertServiceImports && "Portfolio" !in AlertServiceDeclarations
    ensures "Portfolio" !in CommonJsParameters && "Portfolio" !in NodeGlobals
  {
    assert "Portfolio" !in NodeHostGlobals;
    assert "Portfolio" !in StandardGlobals;
  }

  /** The anomaly detector as written: its first statement reads `Portfolio`,
      which the module never binds, and the catch-all turns the resulting
      ReferenceError into an empty list. */
  function CheckAnomaliesAsWritten(portfolio: Option<Portfolio>, detect: seq<Holding> -> Result<seq<Anomaly>, Error>)
    : (r: seq<Alert>)
    ensures Resolve("Portfolio", NodeGlobals).Failure? ==> r == []
    ensures Resolve("Portfolio", NodeGlobals).Success? ==> r == CheckAnomalies(portfolio, detect)
  {
    match Resolve("Portfolio", NodeGlobals)
    case Failure(_) => []
    case Success(_) => CheckAnomalies(portfolio, detect)
  }

  /** As written no anomaly ever becomes an alert, although the detector
      with the model bound reports a detected anomaly. */
  lemma AnomaliesAlwaysDropped(portfolio: Option<Portfolio>, detect: seq<Holding> -> Result<seq<Anomaly>, Error>)
    ensures CheckAnomaliesAsWritten(portfolio, detect) == []
    ensures var a := Anomaly("INFY", 0.9, "price swing");
      var p := Portfolio("u", []);
      var found: seq<Holding> -> Result<seq<Anomaly>, Error> := _ => Success([a]);
      CheckAnomalies(Some(p), found) == [AnomalyAlert(a)] && AnomalyAlert(a).severity == High
  {
    ModuleReferences();
  }

  /** The placeholder change detector: one medium health-score alert from 80
      to 75, whatever the user and the analysis. */
  function CheckSignificantChanges(userId: UserId, analysis: Analysis): (r: seq<Alert>)
    ensures |r| == 1 && r[0].alertType == HealthScoreChange && r[0].severity == Medium
    ensures r[0].relatedMetric == Some("health_score")
    ensures r[0].oldValue == Some(80.0) && r[0].newValue == Some(75.0) && r[0].changePercent == Some(-5.0)
  {
    [Alert(HealthScoreChange, Medium, "Test: Health Score Dropped",
      "This is a sample alert generated for testing purposes.",
      None, Some("health_score"), Some(80.0), Some(75.0), Some(-5.0), None)]
  }

  /** The placeholder alert does not depend on its inputs, and its
      `changePercent` is the drop in points, not the percentage change of the
      two values it carries. */
  lemma SignificantChangesPlaceholder(u1: UserId, a1: Analysis, u2: UserId, a2: Analysis)
    ensures CheckSignificantChanges(u1, a1) == CheckSignificantChanges(u2, a2)
    ensures var alert := CheckSignificantChanges(u1, a1)[0];
      && alert.changePercent.value == alert.newValue.value - alert.oldValue.value
      && CalculatePercentageChange(alert.oldValue.value, alert.newValue.value) == -6.25
  {
  }

  /** The goal detector is not implemented and reports nothing, whatever
      the user and the analysis. */
  function CheckGoalAlerts(userId: UserId, analysis: Analysis): (r: seq<Alert>)
    ensures r == []
  {
    []
  }

  /** Tags every alert of the batch with its owner. */
  function AlertsToStore(userId: UserId, alerts: seq<Alert>): (r: seq<StoredAlert>)
    ensures |r| == |alerts|
    ensures forall i :: 0 <= i < |r| ==> r[i].userId == userId
  {
    seq(|alerts|, i requires 0 <= i < |alerts| => StoredAlert(userId, alerts[i]))
  }

  /** Dropping the tag gives back the batch. */
  lemma StoredRoundTrip(userId: UserId, alerts: seq<Alert>)
    ensures var r := AlertsToStore(userId, alerts);
      seq(|r|, i requires 0 <= i < |r| => r[i].alert) == alerts
  {
  }

  /** The body of `checkPortfolioAlerts` once the analysis is in hand and the
      anomaly detector has produced `anomalies`: the batch is the change,
      anomaly and goal alerts in that order; a non-empty batch is stored,
      tagged with the user, and a storage failure ends the run; otherwise the
      untagged batch is returned. */
  function StoreBatch(
    userId: UserId, analysis: Analysis, anomalies: seq<Alert>,
    insert: seq<StoredAlert> -> Option<Error>)
    : (r: Result<seq<Alert>, Error>)
    ensures var batch := CheckSignificantChanges(userId, analysis) + anomalies + CheckGoalAlerts(userId, analysis);
      && (batch == [] ==> r == Success([]))
      && (batch != [] && insert(AlertsToStore(userId, batch)).Some? ==>
            r == Failure(insert(AlertsToStore(userId, batch)).value))
      && (batch != [] && insert(AlertsToStore(userId, batch)).None? ==> r == Success(batch))
  {
    var alerts := CheckSignificantChanges(userId, analysis) + anomalies + CheckGoalAlerts(userId, analysis);
    if alerts == [] then Success([])
    else match insert(AlertsToStore(userId, alerts))
      case Some(e) => Failure(e)
      case None => Success(alerts)
  }

  /** `checkPortfolioAlerts` as written: the analysis is fetched first and its
      failure ends the run; the anomaly detector is the one that never
      reports, so the stored and returned batch is the placeholder alert. */
  function CheckPortfolioAlerts(
    userId: UserId,
    analyse: UserId -> Result<Analysis, Error>,
    findPortfolio: UserId -> Option<Portfolio>,
    detect: seq<Holding> -> Result<seq<Anomaly>, Error>,
    insert: seq<StoredAlert> -> Option<Error>)
    : (r: Result<seq<Alert>, Error>)
    ensures analyse(userId).Failure? ==> r == Failure(analyse(userId).error)
    ensures analyse(userId).Success? ==>
      var batch := CheckSignificantChanges(userId, analyse(userId).value);
      && (insert(AlertsToStore(userId, batch)).Some? ==> r == Failure(insert(AlertsToStore(userId, batch)).value))
      && (insert(AlertsToStore(userId, batch)).None? ==> r == Success(batch))
  {
    var analysis :- analyse(userId);
    var anomalies := CheckAnomaliesAsWritten(findPortfolio(userId), detect);
    ModuleReferences();
    assert CheckSignificantChanges(userId, analysis) + anomalies + CheckGoalAlerts(userId, analysis)
        == CheckSignificantChanges(userId, analysis);
    StoreBatch(userId, analysis, anomalies, insert)
  }

  /** As written, a successful run returns exactly the one placeholder alert,
      whatever the detector reports. */
  lemma AlertRunShape(
    userId: UserId,
    analyse: UserId -> Result<Analysis, Error>,
    findPortfolio: UserId -> Option<Portfolio>,
    detect: seq<Holding> -> Result<seq<Anomaly>, Error>,
    insert: seq<StoredAlert> -> Option<Error>)
    requires CheckPortfolioAlerts(userId, analyse, findPortfolio, detect, insert).Success?
    ensures var alerts := CheckPortfolioAlerts(userId, analyse, findPortfolio, detect, insert).value;
      && alerts == CheckSignificantChanges(userId, analyse(userId).value)
      && |alerts| == 1
  {
  }

  /** `checkPortfolioAlerts` with the corrected anomaly detector: the batch is
      the change, anomaly and goal alerts in that order. */
  function CheckPortfolioAlertsCorrected(
    userId: UserId,
    analyse: UserId -> Result<Analysis, Error>,
    findPortfolio: UserId -> Option<Portfolio>,
    detect: seq<Holding> -> Result<seq<Anomaly>, Error>,
    insert: seq<StoredAlert> -> Option<Error>)
    : (r: Result<seq<Alert>, Error>)
    ensures analyse(userId).Failure? ==> r == Failure(analyse(userId).error)
    ensures analyse(userId).Success? ==>
      var analysis := analyse(userId).value;
      var batch := CheckSignificantChanges(userId, analysis) + CheckAnomalies(findPortfolio(userId), detect)
        + CheckGoalAlerts(userId, analysis);
      && (batch == [] ==> r == Success([]))
      && (batch != [] && insert(AlertsToStore(userId, batch)).Some? ==>
            r == Failure(insert(AlertsToStore(userId, batch)).value))
      && (batch != [] && insert(AlertsToStore(userId, batch)).None? ==> r == Success(batch))
  {
    var analysis :- analyse(userId);
    StoreBatch(userId, analysis, CheckAnomalies(findPortfolio(userId), detect), insert)
  }

  /** With the corrected detector a successful run returns the placeholder
      change alert followed by one volatility alert per detected anomaly,
      none of them critical. */
  lemma CorrectedAlertRunShape(
    userId: UserId,
    analyse: UserId -> Result<Analysis, Error>,
    findPortfolio: UserId -> Option<Portfolio>,
    detect: seq<Holding> -> Result<seq<Anomaly>, Error>,
    insert: seq<StoredAlert> -> Option<Error>)
    requires CheckPortfolioAlertsCorrected(userId, analyse, findPortfolio, detect, insert).Success?
    ensures var alerts := CheckPortfolioAlertsCorrected(userId, analyse, findPortfolio, detect, insert).value;
      && |alerts| >= 1
      && alerts[0] == CheckSignificantChanges(userId, analyse(userId).value)[0]
      && alerts[1..] == CheckAnomalies(findPortfolio(userId), detect)
      && forall i :: 0 <= i < |alerts| ==> alerts[i].severity != Critical
  {
    var analysis := analyse(userId).value;
    var anomalies := CheckAnomalies(findPortfolio(userId), detect);
    var batch := CheckSignificantChanges(userId, analysis) + anomalies + CheckGoalAlerts(userId, analysis);
    assert batch == CheckSignificantChanges(userId, analysis) + anomalies;
    assert batch[1..] == anomalies;
    forall i | 0 <= i < |anomalies| ensures anomalies[i].severity != Critical {
    }
  }

  /** One detected anomaly and a storage call that succeeds: the run as
      written returns and stores one alert, the corrected run two. */
  lemma AlertRunDropsAnomaly()
    ensures var a := Anomaly("INFY", 0.9, "price swing");
      var analysis := Analysis(Metrics(0.0, 0.0, 0.0, 0.0, [], [], 0, 0.0), AiAnalysis(None, None, None), 46);
      var analyse: UserId -> Result<Analysis, Error> := _ => Success(analysis);
      var find: UserId -> Option<Portfolio> := u => Some(Portfolio(u, []));
      var detect: seq<Holding> -> Result<seq<Anomaly>, Error> := _ => Success([a]);
      var insert: seq<StoredAlert> -> Option<Error> := _ => None;
      && |CheckPortfolioAlerts("u", analyse, find, detect, insert).value| == 1
      && |CheckPortfolioAlertsCorrected("u", analyse, find, detect, insert).value| == 2
  {
  }
}
