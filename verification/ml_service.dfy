/** The machine-learning service: an optional API key, the model list, the
    `callAPI` gate and the replies it stands in for. Each call is one atomic
    step. `fails` says whether the request inside `callAPI`'s try block
    throws, which `callAPI` turns into a null reply; random numbers are
    explicit draw parameters. */
module MlService {
  import opened Wrappers
  import Seqs
  import Store
  import opened Shipments

  // ---------------------------------------------------------------------
  // Models and the key
  // ---------------------------------------------------------------------

  datatype ModelType = Predictive | AnomalyDetection | Optimization | Nlp
  datatype ModelStatus = Active | Training | Inactive

  /** `accuracy` is in basis points (0.89 is 8900). */
  datatype ModelInfo = ModelInfo(
    id: string, name: string, kind: ModelType, accuracy: int, lastTrained: string, status: ModelStatus)

  const InitialModels: seq<ModelInfo> := [
    ModelInfo("model-001", "Shipment Delay Predictor", Predictive, 8900, "2023-11-15", Active),
    ModelInfo("model-002", "Inventory Anomaly Detector", AnomalyDetection, 9200, "2023-12-05", Active),
    ModelInfo("model-003", "Route Optimizer", Optimization, 8500, "2024-01-10", Active),
    ModelInfo("model-004", "Document Classifier", Nlp, 8800, "2024-02-20", Training)
  ]

  /** The key is `string | null`. */
  datatype Service = Service(apiKey: Option<string>, models: seq<ModelInfo>)

  const Fresh := Service(None, InitialModels)

  /** `!!this.apiKey`: null and the empty string are both unconfigured. */
  predicate IsConfigured(s: Service) {
    s.apiKey.Some? && s.apiKey.value != ""
  }

  /** `configure(apiKey)`: stores any key and answers true, even for a key
      that leaves the service unconfigured. */
  function Configure(s: Service, key: string): (r: (Service, bool))
    ensures r.1
    ensures r.0.apiKey == Some(key) && r.0.models == s.models
    ensures IsConfigured(r.0) <==> key != ""
  {
    (s.(apiKey := Some(key)), true)
  }

  /** `initialize()` with the stored key (None for a missing entry): only a
      non-empty stored key is taken, and only then is the answer true. */
  function Initialize(s: Service, stored: Option<string>): (r: (Service, bool))
    ensures r.1 <==> stored.Some? && stored.value != ""
    ensures r.1 ==> r.0 == s.(apiKey := stored) && IsConfigured(r.0)
    ensures !r.1 ==> r.0 == s
  {
    if stored.Some? && stored.value != "" then (s.(apiKey := stored), true) else (s, false)
  }

  // ---------------------------------------------------------------------
  // The gate
  // ---------------------------------------------------------------------

  /** How a call through `callAPI` settles: it rejects, it resolves to null,
      or it resolves to the mock reply. */
  datatype Call<T> = Rejected | NullReply | Reply(value: T)

  /** `callAPI`: without a key it throws before any request; with one, a
      failing request is caught and gives null, otherwise the mock reply. */
  function CallApi<T>(s: Service, fails: bool, mock: T): (r: Call<T>)
    ensures r.Rejected? <==> !IsConfigured(s)
    ensures r.NullReply? <==> IsConfigured(s) && fails
    ensures r.Reply? ==> r.value == mock
  {
    if !IsConfigured(s) then Rejected else if fails then NullReply else Reply(mock)
  }

  // ---------------------------------------------------------------------
  // Insight lists
  // ---------------------------------------------------------------------

  datatype Impact = Positive | Negative
  datatype Trend = Up | Down

  /** The fields of an insight the model keeps; descriptions and icon
      backgrounds are left out. */
  datatype Recommendation = Recommendation(title: string, impact: Impact, impactValue: string, impactLabel: string)
  datatype Anomaly = Anomaly(title: string, action: string)
  datatype Forecast = Forecast(title: string, trend: Trend, trendValue: string, timeline: string)

  const MockRecommendations: seq<Recommendation> := [
    Recommendation("Optimize Inventory Levels", Positive, "12%", "Carrying cost reduction"),
    Recommendation("Consolidate European Shipments", Positive, "€4,200", "Monthly savings"),
    Recommendation("Supplier Diversification Alert", Negative, "32%", "Risk exposure"),
    Recommendation("Alternative Shipping Route", Positive, "8 days", "Reduced lead time")
  ]

  const MockAnomalies: seq<Anomaly> := [
    Anomaly("Unusual Delivery Pattern", "Review carrier SLAs and performance metrics"),
    Anomaly("Inventory Data Inconsistency", "Conduct physical inventory verification"),
    Anomaly("Pricing Anomaly Detected", "Contact supplier representative"),
    Anomaly("Order Frequency Change", "Review customer contract and forecast")
  ]

  const MockForecasts: seq<Forecast> := [
    Forecast("Peak Season Demand", Up, "+27%", "Next quarter"),
    Forecast("Supplier Lead Time Risk", Up, "+12 days", "Next 60 days"),
    Forecast("Transportation Cost Trend", Down, "-8.5%", "Next 90 days"),
    Forecast("Market Share Projection", Up, "+3.2%", "Next 2 quarters")
  ]

  /** The reply's list, or [] for a null reply or a rejection. */
  function ListOrEmpty<T>(c: Call<seq<T>>): seq<T> {
    match c
    case Reply(v) => v
    case _ => []
  }

  /** `generateRecommendations`: the four mock entries when the call goes
      through, [] otherwise; it never rejects. */
  function GenerateRecommendations(s: Service, fails: bool): (r: seq<Recommendation>)
    ensures |r| > 0 <==> IsConfigured(s) && !fails
    ensures |r| > 0 ==> r == MockRecommendations && |r| == 4
  {
    ListOrEmpty(CallApi(s, fails, MockRecommendations))
  }

  /** `detectAnomalies`. */
  function DetectAnomalies(s: Service, fails: bool): (r: seq<Anomaly>)
    ensures |r| > 0 <==> IsConfigured(s) && !fails
    ensures |r| > 0 ==> r == MockAnomalies && |r| == 4
  {
    ListOrEmpty(CallApi(s, fails, MockAnomalies))
  }

  /** `generateForecasts`. */
  function GenerateForecasts(s: Service, fails: bool): (r: seq<Forecast>)
    ensures |r| > 0 <==> IsConfigured(s) && !fails
    ensures |r| > 0 ==> r == MockForecasts && |r| == 4
  {
    ListOrEmpty(CallApi(s, fails, MockForecasts))
  }

  // ---------------------------------------------------------------------
  // Shipment analytics
  // ---------------------------------------------------------------------

  type Below10 = n: nat | n < 10
  type Below15 = n: nat | n < 15
  type Below20 = n: nat | n < 20
  type Below30 = n: nat | n < 30

  /** `Math.floor(Math.random() * k)` for the four mode fallbacks. */
  datatype ModeDraws = ModeDraws(truck: Below30, ship: Below20, air: Below15, rail: Below10)

  datatype ScoreDraw = ScoreDraw(onTime: Below10, cost: Below10)
  datatype CarrierDraws = CarrierDraws(fast: ScoreDraw, pacific: ScoreDraw, aero: ScoreDraw, rail: ScoreDraw)

  datatype ModeCount = ModeCount(mode: Mode, value: nat)
  datatype CarrierScore = CarrierScore(name: string, onTime: nat, costEfficiency: nat)

  /** Planned against optimized route cost. */
  datatype RouteSaving = RouteSaving(name: string, current: int, optimized: int, savings: int)

  /** What `analyzeShipmentData` returns. `routes` is present only when the
      reply came through; emissions and risk figures are left out. */
  datatype Analytics = Analytics(modes: seq<ModeCount>, carriers: seq<CarrierScore>, routes: Option<seq<RouteSaving>>)

  const Modes: seq<Mode> := [Truck, Ship, Air, Rail]

  function HasMode(m: Mode): Shipment -> bool {
    (s: Shipment) => s.mode == m
  }

  /** `shipments.filter(s => s.mode === m).length`. */
  function ModeTally(ss: seq<Shipment>, m: Mode): nat {
    Seqs.Count(ss, HasMode(m))
  }

  /** JavaScript's `count || fallback` on numbers. */
  function OrElse(count: nat, fallback: nat): nat {
    if count != 0 then count else fallback
  }

  function ReplyModes(ss: seq<Shipment>, d: ModeDraws): seq<ModeCount> {
    [ModeCount(Truck, OrElse(ModeTally(ss, Truck), 40 + d.truck)),
     ModeCount(Ship, OrElse(ModeTally(ss, Ship), 20 + d.ship)),
     ModeCount(Air, OrElse(ModeTally(ss, Air), 15 + d.air)),
     ModeCount(Rail, OrElse(ModeTally(ss, Rail), 10 + d.rail))]
  }

  function FallbackModes(ss: seq<Shipment>): seq<ModeCount> {
    [ModeCount(Truck, ModeTally(ss, Truck)), ModeCount(Ship, ModeTally(ss, Ship)),
     ModeCount(Air, ModeTally(ss, Air)), ModeCount(Rail, ModeTally(ss, Rail))]
  }

  function ReplyCarriers(d: CarrierDraws): seq<CarrierScore> {
    [CarrierScore("FastFreight", 85 + d.fast.onTime, 80 + d.fast.cost),
     CarrierScore("Pacific Ship", 75 + d.pacific.onTime, 85 + d.pacific.cost),
     CarrierScore("AeroFreight", 90 + d.aero.onTime, 65 + d.aero.cost),
     CarrierScore("RailExpress", 85 + d.rail.onTime, 85 + d.rail.cost)]
  }

  const FallbackCarriers: seq<CarrierScore> := [
    CarrierScore("FastFreight", 92, 85), CarrierScore("Pacific Ship", 78, 92),
    CarrierScore("AeroFreight", 95, 70), CarrierScore("RailExpress", 88, 90)
  ]

  const MockRoutes: seq<RouteSaving> := [
    RouteSaving("East Coast", 5200, 4680, 520), RouteSaving("West Coast", 7800, 6942, 858),
    RouteSaving("Midwest", 4100, 3731, 369), RouteSaving("South", 5500, 4895, 605)
  ]

  /** `analyzeShipmentData`: the reply's figures, the exact counts with fixed
      carrier scores on a null reply, and empty lists when `callAPI` throws. */
  function AnalyzeShipmentData(s: Service, fails: bool, ss: seq<Shipment>, md: ModeDraws, cd: CarrierDraws): (r: Analytics)
    ensures !IsConfigured(s) <==> r.modes == [] && r.carriers == []
    ensures r.routes.Some? <==> IsConfigured(s) && !fails
  {
    match CallApi(s, fails, ReplyModes(ss, md))
    case Rejected => Analytics([], [], None)
    case NullReply => Analytics(FallbackModes(ss), FallbackCarriers, None)
    case Reply(modes) => Analytics(modes, ReplyCarriers(cd), Some(MockRoutes))
  }

  /** The four mode counts add up to the number of shipments. */
  lemma ModeTallies(ss: seq<Shipment>)
    ensures ModeTally(ss, Truck) + ModeTally(ss, Ship) + ModeTally(ss, Air) + ModeTally(ss, Rail) == |ss|
  {
    var ts := (x: Shipment) => x.mode == Truck || x.mode == Ship;
    var ar := (x: Shipment) => x.mode == Air || x.mode == Rail;
    var any := (x: Shipment) => true;
    Seqs.CountSplit(ss, HasMode(Truck), HasMode(Ship), ts);
    Seqs.CountSplit(ss, HasMode(Air), HasMode(Rail), ar);
    Seqs.CountSplit(ss, ts, ar, any);
    Seqs.FilterAll(ss, any);
  }

  /** Whenever the service is configured, the four modes come in order. On a
      null reply they are the exact counts and add up to the number of
      shipments; on a reply every value is positive, is the real count when
      that is non-zero, and the carriers are the same four as the fallback's. */
  lemma AnalyticsLaws(s: Service, fails: bool, ss: seq<Shipment>, md: ModeDraws, cd: CarrierDraws)
    requires IsConfigured(s)
    ensures var r := AnalyzeShipmentData(s, fails, ss, md, cd);
      |r.modes| == 4 && (forall i :: 0 <= i < 4 ==> r.modes[i].mode == Modes[i])
      && |r.carriers| == 4 && (forall i :: 0 <= i < 4 ==> r.carriers[i].name == FallbackCarriers[i].name)
    ensures var r := AnalyzeShipmentData(s, fails, ss, md, cd);
      fails ==> r.modes[0].value + r.modes[1].value + r.modes[2].value + r.modes[3].value == |ss|
    ensures var r := AnalyzeShipmentData(s, fails, ss, md, cd);
      !fails ==> forall i :: 0 <= i < 4 ==>
        r.modes[i].value > 0 && (ModeTally(ss, Modes[i]) > 0 ==> r.modes[i].value == ModeTally(ss, Modes[i]))
  {
    ModeTallies(ss);
  }

  /** Each route's saving is its planned cost less its optimized cost. */
  lemma RouteSavingsConsistent()
    ensures forall i :: 0 <= i < |MockRoutes| ==> MockRoutes[i].savings == MockRoutes[i].current - MockRoutes[i].optimized
  {
  }

  // ---------------------------------------------------------------------
  // Methods without a catch
  // ---------------------------------------------------------------------

  datatype Segment = Segment(from: string, to: string, mode: Mode, hours: nat)
  datatype Route = Route(id: string, name: string, segments: seq<Segment>)

  /** The fixed legs of the two routes `/optimize-routes` answers with; the
      distances, costs and savings are random and left out. */
  function RoutePlan(origin: string, destination: string): seq<Route> {
    [Route("route-1", "Primary Route", [
       Segment(origin, "Distribution Center Alpha", Truck, 12),
       Segment("Distribution Center Alpha", "Hub Beta", Rail, 28),
       Segment("Hub Beta", destination, Truck, 8)]),
     Route("route-2", "Alternative Route", [
       Segment(origin, "Port Charlie", Truck, 6),
       Segment("Port Charlie", "Port Delta", Ship, 48),
       Segment("Port Delta", destination, Truck, 10)])]
  }

  /** The legs run from the origin to the destination without a gap. */
  predicate Connects(r: Route, origin: string, destination: string) {
    |r.segments| > 0 && r.segments[0].from == origin && r.segments[|r.segments| - 1].to == destination
    && forall i :: 0 <= i < |r.segments| - 1 ==> r.segments[i].to == r.segments[i + 1].from
  }

  /** `optimizeShippingRoutes`. */
  function OptimizeShippingRoutes(s: Service, fails: bool, origin: string, destination: string): (r: Call<seq<Route>>)
    ensures r.Rejected? <==> !IsConfigured(s)
    ensures r.Reply? ==> |r.value| == 2 && forall i :: 0 <= i < |r.value| ==> Connects(r.value[i], origin, destination)
  {
    CallApi(s, fails, RoutePlan(origin, destination))
  }

  /** `Math.random()` in steps of 1/10000. */
  type Chance = n: nat | n < 10000

  datatype DelayPrediction = DelayPrediction(shipmentId: string, predictedDelay: nat)

  /** `predictedDelay`: above 0.7 a long delay, above 0.4 a short one, else
      none. */
  function PredictedDelay(p: Chance, long: nat, short: nat): nat {
    if p > 7000 then long + 24 else if p > 4000 then short + 4 else 0
  }

  /** `predictDelays`, with the probability draw and the two delay draws. */
  function PredictDelays(s: Service, fails: bool, shipmentId: string, p: Chance, long: Below48, short: Below24): (r: Call<DelayPrediction>)
    ensures r.Rejected? <==> !IsConfigured(s)
    ensures r.Reply? ==> r.value.shipmentId == shipmentId
    ensures r.Reply? ==> (r.value.predictedDelay == 0 <==> p <= 4000)
    ensures r.Reply? && p > 7000 ==> 24 <= r.value.predictedDelay < 72
    ensures r.Reply? && 4000 < p <= 7000 ==> 4 <= r.value.predictedDelay < 28
  {
    CallApi(s, fails, DelayPrediction(shipmentId, PredictedDelay(p, long, short)))
  }

  type Below24 = n: nat | n < 24
  type Below48 = n: nat | n < 48

  /** The two delay bands overlap: with these draws a higher probability
      predicts a shorter delay. */
  lemma DelayBandsOverlap()
    ensures PredictedDelay(7001, 0, 0) < PredictedDelay(7000, 0, 23)
    ensures PredictedDelay(4000, 47, 23) == 0 < PredictedDelay(4001, 0, 0)
  {
  }

  datatype StockLevel = StockLevel(sku: string, currentStock: nat, recommendedStock: nat, savingsPotential: Option<int>)
  datatype InventoryPlan = InventoryPlan(levels: seq<StockLevel>, totalSavings: int)

  const MockInventoryPlan := InventoryPlan([
    StockLevel("SKU-001", 120, 95, Some(4200)), StockLevel("SKU-002", 85, 110, None),
    StockLevel("SKU-003", 210, 150, Some(5800)), StockLevel("SKU-004", 65, 65, None)
  ], 10000)

  function SavingsSum(levels: seq<StockLevel>): int {
    if |levels| == 0 then 0 else levels[0].savingsPotential.GetOr(0) + SavingsSum(levels[1..])
  }

  /** `optimizeInventory`: the same plan whatever the categories and
      locations. */
  function OptimizeInventory(s: Service, fails: bool, categories: seq<string>, locations: seq<string>): (r: Call<InventoryPlan>)
    ensures r.Rejected? <==> !IsConfigured(s)
    ensures r.Reply? ==> r.value.totalSavings == SavingsSum(r.value.levels)
  {
    assert SavingsSum(MockInventoryPlan.levels[3..]) == 0;
    CallApi(s, fails, MockInventoryPlan)
  }

  datatype DemandPeriod = DemandPeriod(period: string, demand: nat, confidence: nat, trend: string)

  const MockDemand: seq<DemandPeriod> := [
    DemandPeriod("Q3 2023", 12500, 9200, "up"), DemandPeriod("Q4 2023", 18700, 8500, "up"),
    DemandPeriod("Q1 2024", 14200, 7800, "down"), DemandPeriod("Q2 2024", 13800, 7200, "stable")
  ]

  /** `forecastDemand`: four periods whatever the product and horizon, with
      confidence falling period by period. */
  function ForecastDemand(s: Service, fails: bool, productId: string, months: int): (r: Call<seq<DemandPeriod>>)
    ensures r.Rejected? <==> !IsConfigured(s)
    ensures r.Reply? ==> |r.value| == 4
    ensures r.Reply? ==> forall i :: 0 <= i < 3 ==> r.value[i].confidence > r.value[i + 1].confidence
  {
    CallApi(s, fails, MockDemand)
  }

  // ---------------------------------------------------------------------
  // Training
  // ---------------------------------------------------------------------

  /** The reply every endpoint without its own mock gets. */
  datatype GenericReply = GenericReply(status: string, success: Option<bool>, expectedAccuracy: Option<int>)

  const DefaultReply := GenericReply("success", None, None)

  function ModelId(m: ModelInfo): string { m.id }

  /** The in-place update of the first model with the id: status training,
      accuracy from the reply unless it is missing or 0. */
  function MarkTraining(m: ModelInfo, reply: GenericReply): ModelInfo {
    m.(status := Training,
       accuracy := if reply.expectedAccuracy.Some? && reply.expectedAccuracy.value != 0 then reply.expectedAccuracy.value else m.accuracy)
  }

  /** `response && response.success`, then the update of the first match. */
  function ApplyTraining(models: seq<ModelInfo>, modelId: string, c: Call<GenericReply>): (r: seq<ModelInfo>)
    ensures |r| == |models|
    ensures !(c.Reply? && c.value.success == Some(true)) ==> r == models
  {
    if c.Reply? && c.value.success == Some(true) then Store.Update(models, modelId, c.value, ModelId, MarkTraining).items
    else models
  }

  /** `trainModel`: the new service and how the call settles. */
  function TrainModel(s: Service, fails: bool, modelId: string): (r: (Service, Call<GenericReply>))
    ensures r.1.Rejected? <==> !IsConfigured(s)
    ensures r.0.apiKey == s.apiKey
  {
    var c := CallApi(s, fails, DefaultReply);
    (s.(models := ApplyTraining(s.models, modelId, c)), c)
  }

  /** Under the mock the reply has no `success`, so training never changes
      the model list. */
  lemma TrainingChangesNothing(s: Service, fails: bool, modelId: string)
    ensures TrainModel(s, fails, modelId).0 == s
  {
  }

  /** A reply that did report success marks exactly the first model with the
      id as training, when there is one. */
  lemma TrainingSuccessMarksFirst(models: seq<ModelInfo>, modelId: string, reply: GenericReply, i: nat)
    requires reply.success == Some(true)
    requires Store.FirstWithId(models, modelId, ModelId, i)
    ensures ApplyTraining(models, modelId, Reply(reply)) == models[i := MarkTraining(models[i], reply)]
    ensures ApplyTraining(models, modelId, Reply(reply))[i].status == Training
  {
    var f := Store.FindIndex(models, modelId, ModelId);
    Store.FirstWithIdUnique(models, modelId, ModelId, f.value, i);
  }

  /** Without a key none of the five methods that lack a catch resolves:
      each rejects. With a key none rejects. */
  lemma UncaughtGate(s: Service, fails: bool, origin: string, destination: string, id: string, p: Chance,
                     long: Below48, short: Below24, categories: seq<string>, locations: seq<string>, months: int)
    ensures OptimizeShippingRoutes(s, fails, origin, destination).Rejected? <==> !IsConfigured(s)
    ensures PredictDelays(s, fails, id, p, long, short).Rejected? <==> !IsConfigured(s)
    ensures OptimizeInventory(s, fails, categories, locations).Rejected? <==> !IsConfigured(s)
    ensures ForecastDemand(s, fails, id, months).Rejected? <==> !IsConfigured(s)
    ensures TrainModel(s, fails, id).1.Rejected? <==> !IsConfigured(s)
  {
  }
}
