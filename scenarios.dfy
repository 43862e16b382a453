/** Worked examples of a whole collection: a host default view naming
    "node1" and a metrics view with one metric, "cpu-usage". */
module Scenarios {
  import opened PyJson
  import opened Dict
  import opened MetricStatus
  import opened Fetch
  import opened Collect

  /** `float` on the one string these examples convert. */
  function ParseSample(j: Json): Option<real> {
    if j == JStr("12.5") then Some(12.5) else None
  }

  function HostView(name: string): Json {
    JObj([("host-default-list", JObj([("list-items", JObj([("list-item",
      JArr([JObj([("nameref", JStr(name))])]))]))]))])
  }

  function MetricsView(entries: seq<Json>): Json {
    var info := CpuInfo(entries);
    JObj([("host-metrics-list", JObj([("metrics-relations", JObj([("host-metrics-list",
      JObj([("metrics", JArr([JObj([("cpu-usage", info)])]))]))]))]))])
  }

  function CpuInfo(entries: seq<Json>): Json {
    JObj([("summary", JObj([("data", JObj([("entry", JArr(entries))]))]))])
  }

  lemma MetricsOfView(entries: seq<Json>)
    ensures MetricsOf(MetricsView(entries)) == Ok(Some([JObj([("cpu-usage", CpuInfo(entries))])]))
  {
  }

  lemma StatusOfOneMetric(info: Json)
    ensures StatusOf([JObj([("cpu-usage", info)])]) ==
      match Contribution(info)
      case Raise(e) => Raise(e)
      case Ok(None) => Ok([])
      case Ok(Some(v)) => Ok([("cpu-usage", v)])
  {
    var metrics, ps := [JObj([("cpu-usage", info)])], [("cpu-usage", info)];
    assert metrics[..0] == [];
    assert ps[..0] == [];
    assert AddPairs([], ps[..0]) == Ok([]);
    assert StatusOf(metrics) == AddPairs([], ps);
    match Contribution(info)
    case Raise(e) =>
    case Ok(None) =>
    case Ok(Some(v)) =>
      assert Put([], "cpu-usage", v) == [("cpu-usage", v)];
  }

  /** One entry holding "12.5" gives exactly one observation, 12.5, of
      "cpu-usage" on "node1". */
  lemma OneEntryOneObservation()
    ensures CollectHostMetrics(FetchResult(200, Some(HostView("node1")), 200,
                                           Some(MetricsView([JObj([("value", JStr("12.5"))])]))), ParseSample)
         == Gen([Observation(12.5, Attributes("host", JStr("node1"), "cpu-usage"))], false)
  {
    var entries := [JObj([("value", JStr("12.5"))])];
    assert HostName(HostView("node1")) == Ok(JStr("node1"));
    assert Contribution(CpuInfo(entries)) == Ok(Some(JStr("12.5")));
    MetricsOfView(entries);
    StatusOfOneMetric(CpuInfo(entries));
    CollectHostOfWrap(JStr("node1"), [("cpu-usage", JStr("12.5"))], ParseSample);
  }

  /** An empty entry list stores nothing, so nothing is observed. */
  lemma EmptyEntriesNoObservation()
    ensures CollectHostMetrics(FetchResult(200, Some(HostView("node1")), 200, Some(MetricsView([]))), ParseSample)
         == Finished
  {
    assert HostName(HostView("node1")) == Ok(JStr("node1"));
    assert Contribution(CpuInfo([])) == Ok(None);
    MetricsOfView([]);
    StatusOfOneMetric(CpuInfo([]));
    CollectHostOfWrap(JStr("node1"), [], ParseSample);
  }
}
