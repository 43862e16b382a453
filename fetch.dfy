/** `fetch_metric`: from the two HTTP replies (their status codes and decoded
    bodies) to the data the collectors read, or to no data at all. */
module Fetch {
  import opened PyJson
  import opened Dict
  import opened MetricStatus

  const HttpOk := 200

  /** The host name read from the default view: the `nameref` of the first
      item of `host-default-list.list-items.list-item`; `None` (JNull) when
      that list is empty or the item has no `nameref`. */
  function HostName(body: Json): Result<Json> {
    var hostList :- Index(body, "host-default-list");
    var listItems :- Index(hostList, "list-items");
    var hostItems :- Index(listItems, "list-item");
    if !Truthy(hostItems) then Ok(JNull) else
    var first :- First(hostItems);
    Get(first, "nameref", JNull)
  }

  /** `len(metrics)`, `metrics[:3]` and the debug loop calling `.items()` on the
      first three metrics: a list passes if its first three elements are dicts
      (later ones are checked by the status loop), the empty string passes as
      an empty sequence, and anything else raises. */
  function MetricList(metrics: Json): (r: Result<seq<Json>>)
    ensures r.Ok? <==>
      (metrics.JArr? && forall i :: 0 <= i < |metrics.items| && i < 3 ==> metrics.items[i].JObj?) ||
      metrics == JStr("")
    ensures metrics.JArr? && r.Ok? ==> r.value == metrics.items
    ensures metrics.JStr? && r.Ok? ==> r.value == []
  {
    match metrics
    case JArr(a) =>
      if forall i :: 0 <= i < |a| && i < 3 ==> a[i].JObj? then Ok(a) else Raise(AttributeError)
    case JStr(s) => if s == "" then Ok([]) else Raise(AttributeError)
    case JObj(_) => Raise(TypeError)
    case _ => Raise(TypeError)
  }

  /** The metric objects of the metrics view; `Ok(None)` when the body has no
      `metrics-relations`, where the function falls off the end of its `if`. */
  function MetricsOf(body: Json): Result<Option<seq<Json>>> {
    var metricsList :- Get(body, "host-metrics-list", JObj([]));
    var hasRelations :- Contains("metrics-relations", metricsList);
    if !hasRelations then Ok(None) else
    var relations :- Index(metricsList, "metrics-relations");
    var inner :- Index(relations, "host-metrics-list");
    var metrics :- Get(inner, "metrics", JArr([]));
    var ms :- MetricList(metrics);
    Ok(Some(ms))
  }

  /** The data shaped like the default view: one list item carrying the host
      name and the status dict. */
  function Wrap(name: Json, status: Dict): Json {
    JObj([("host-default-list", JObj([("list-items", JObj([("list-item",
      JArr([JObj([("nameref", name), ("status", JObj(status))])]))]))]))])
  }

  /** What `fetch_metric` returns, given both replies; a body is `None` when
      it is not valid JSON. Every raised exception, a non-200 status, and a
      metrics body without `metrics-relations` give no data. */
  function FetchResult(hostStatus: int, hostBody: Option<Json>, metricsStatus: int, metricsBody: Option<Json>): Option<Json> {
    if hostStatus != HttpOk || hostBody.None? then None else
    match HostName(hostBody.value)
    case Raise(_) => None
    case Ok(name) =>
      if metricsStatus != HttpOk || metricsBody.None? then None else
      match MetricsOf(metricsBody.value)
      case Raise(_) => None
      case Ok(None) => None
      case Ok(Some(metrics)) =>
        match StatusOf(metrics)
        case Raise(_) => None
        case Ok(status) => Some(Wrap(name, status))
  }

  /** `fetch_metric` on the replies to its two requests. */
  method FetchMetric(hostStatus: int, hostBody: Option<Json>, metricsStatus: int, metricsBody: Option<Json>)
    returns (r: Option<Json>)
    ensures r == FetchResult(hostStatus, hostBody, metricsStatus, metricsBody)
  {
    if hostStatus != HttpOk || hostBody.None? {
      return None;
    }
    var hostName := HostName(hostBody.value);
    if hostName.Raise? {
      return None;
    }
    if metricsStatus != HttpOk || metricsBody.None? {
      return None;
    }
    var metrics := MetricsOf(metricsBody.value);
    if metrics.Raise? || metrics.value.None? {
      return None;
    }
    var statusData := ExtractStatus(metrics.value.value);
    if statusData.Raise? {
      return None;
    }
    r := Some(Wrap(hostName.value, statusData.value));
  }

  /** The host name is the first host item's `nameref`, `None` when the list
      is empty or the item lacks the key; a missing key on the way raises. */
  lemma HostNameOfList(hostBody: Json, items: seq<Json>)
    requires hostBody.JObj? && Lookup(hostBody.fields, "host-default-list").Some?
    requires var l := Lookup(hostBody.fields, "host-default-list").value;
      l.JObj? && Lookup(l.fields, "list-items").Some? &&
      var li := Lookup(l.fields, "list-items").value;
      li.JObj? && Lookup(li.fields, "list-item") == Some(JArr(items))
    ensures items == [] ==> HostName(hostBody) == Ok(JNull)
    ensures items != [] && items[0].JObj? ==>
      HostName(hostBody) == Ok(Lookup(items[0].fields, "nameref").GetOr(JNull))
    ensures items != [] && !items[0].JObj? ==> HostName(hostBody).Raise?
  {
  }

  /** A missing key, or a value that is not a dict, anywhere on the path
      `host-default-list.list-items.list-item` raises. */
  lemma HostNameMissingKeys(hostBody: Json)
    ensures !hostBody.JObj? ==> HostName(hostBody).Raise?
    ensures hostBody.JObj? && Lookup(hostBody.fields, "host-default-list").None? ==>
      HostName(hostBody).Raise?
    ensures hostBody.JObj? && Lookup(hostBody.fields, "host-default-list").Some? ==>
      var l := Lookup(hostBody.fields, "host-default-list").value;
      (!l.JObj? || Lookup(l.fields, "list-items").None?) ==> HostName(hostBody).Raise?
    ensures hostBody.JObj? && Lookup(hostBody.fields, "host-default-list").Some? ==>
      var l := Lookup(hostBody.fields, "host-default-list").value;
      l.JObj? && Lookup(l.fields, "list-items").Some? ==>
      var li := Lookup(l.fields, "list-items").value;
      (!li.JObj? || Lookup(li.fields, "list-item").None?) ==> HostName(hostBody).Raise?
  {
  }

  /** Reading the host name back from the wrapped data gives the name that
      was wrapped: the wrapper matches the default view. */
  lemma HostNameOfWrap(name: Json, status: Dict)
    ensures HostName(Wrap(name, status)) == Ok(name)
  {
    var item := JObj([("nameref", name), ("status", JObj(status))]);
    assert Lookup(item.fields, "nameref") == Some(name);
  }

  /** The inputs for which there is no data. */
  lemma FetchNoData(hostStatus: int, hostBody: Option<Json>, metricsStatus: int, metricsBody: Option<Json>)
    ensures hostStatus != HttpOk ==> FetchResult(hostStatus, hostBody, metricsStatus, metricsBody).None?
    ensures metricsStatus != HttpOk ==> FetchResult(hostStatus, hostBody, metricsStatus, metricsBody).None?
    ensures hostBody.Some? && HostName(hostBody.value).Raise? ==>
      FetchResult(hostStatus, hostBody, metricsStatus, metricsBody).None?
    ensures (metricsBody.Some? && metricsBody.value.JObj? &&
             Lookup(metricsBody.value.fields, "host-metrics-list").None?) ==>
            FetchResult(hostStatus, hostBody, metricsStatus, metricsBody).None?
    ensures (metricsBody.Some? && metricsBody.value.JObj? &&
             Lookup(metricsBody.value.fields, "host-metrics-list").Some? &&
             Lookup(metricsBody.value.fields, "host-metrics-list").value.JObj? &&
             Lookup(Lookup(metricsBody.value.fields, "host-metrics-list").value.fields, "metrics-relations").None?) ==>
            FetchResult(hostStatus, hostBody, metricsStatus, metricsBody).None?
  {
  }

  /** `metrics-relations` without `host-metrics-list` raises KeyError, which
      the outer handler turns into no data. */
  lemma FetchNoDataWithoutInnerList(hostStatus: int, hostBody: Option<Json>, metricsStatus: int,
                                    metricsBody: Option<Json>, relations: seq<(string, Json)>)
    requires metricsBody.Some? && metricsBody.value.JObj?
    requires var l := Lookup(metricsBody.value.fields, "host-metrics-list");
      l.Some? && l.value.JObj? && Lookup(l.value.fields, "metrics-relations") == Some(JObj(relations))
    requires Lookup(relations, "host-metrics-list").None?
    ensures MetricsOf(metricsBody.value) == Raise(KeyError)
    ensures FetchResult(hostStatus, hostBody, metricsStatus, metricsBody).None?
  {
  }

  /** Along the path `host-metrics-list.metrics-relations.host-metrics-list.metrics`
      of dicts, a `metrics` list passes unchanged when its first three
      elements are dicts, and raises otherwise. */
  lemma MetricsOfPath(body: seq<(string, Json)>, l: seq<(string, Json)>, rel: seq<(string, Json)>,
                      inner: seq<(string, Json)>, a: seq<Json>)
    requires Lookup(body, "host-metrics-list") == Some(JObj(l))
    requires Lookup(l, "metrics-relations") == Some(JObj(rel))
    requires Lookup(rel, "host-metrics-list") == Some(JObj(inner))
    requires Lookup(inner, "metrics") == Some(JArr(a))
    ensures (forall i :: 0 <= i < |a| && i < 3 ==> a[i].JObj?) ==> MetricsOf(JObj(body)) == Ok(Some(a))
    ensures !(forall i :: 0 <= i < |a| && i < 3 ==> a[i].JObj?) ==> MetricsOf(JObj(body)) == Raise(AttributeError)
  {
  }

  /** With both replies 200 and a host name found, the data wraps the
      `status_data` built from the `metrics` list at the end of the path, and
      there is no data exactly when building it raises. */
  lemma FetchOfMetricsPath(hostBody: Json, name: Json, metricsBody: Json, l: seq<(string, Json)>,
                           rel: seq<(string, Json)>, inner: seq<(string, Json)>, a: seq<Json>)
    requires HostName(hostBody) == Ok(name)
    requires metricsBody.JObj? && Lookup(metricsBody.fields, "host-metrics-list") == Some(JObj(l))
    requires Lookup(l, "metrics-relations") == Some(JObj(rel))
    requires Lookup(rel, "host-metrics-list") == Some(JObj(inner))
    requires Lookup(inner, "metrics") == Some(JArr(a))
    requires forall i :: 0 <= i < |a| && i < 3 ==> a[i].JObj?
    ensures StatusOf(a).Ok? ==>
      FetchResult(HttpOk, Some(hostBody), HttpOk, Some(metricsBody)) == Some(Wrap(name, StatusOf(a).value))
    ensures StatusOf(a).Raise? ==> FetchResult(HttpOk, Some(hostBody), HttpOk, Some(metricsBody)).None?
  {
    MetricsOfPath(metricsBody.fields, l, rel, inner, a);
  }

  /** A missing `metrics` key is not an error: the status is empty. */
  lemma FetchWithoutMetricsKey(hostBody: Json, name: Json, metricsBody: Json, inner: seq<(string, Json)>)
    requires HostName(hostBody) == Ok(name)
    requires metricsBody.JObj?
    requires var l := Lookup(metricsBody.fields, "host-metrics-list");
      l.Some? && l.value.JObj? &&
      var rel := Lookup(l.value.fields, "metrics-relations");
      rel.Some? && rel.value.JObj? && Lookup(rel.value.fields, "host-metrics-list") == Some(JObj(inner))
    requires Lookup(inner, "metrics").None?
    ensures FetchResult(HttpOk, Some(hostBody), HttpOk, Some(metricsBody)) == Some(Wrap(name, []))
  {
  }

  /** Every result carries exactly one list item: the host name and the
      status dict built from the metric objects (see StatusOfReflects). */
  lemma FetchResultShape(hostStatus: int, hostBody: Option<Json>, metricsStatus: int, metricsBody: Option<Json>, data: Json)
    returns (name: Json, metrics: seq<Json>, status: Dict)
    requires FetchResult(hostStatus, hostBody, metricsStatus, metricsBody) == Some(data)
    ensures hostStatus == HttpOk && metricsStatus == HttpOk && hostBody.Some? && metricsBody.Some?
    ensures HostName(hostBody.value) == Ok(name)
    ensures MetricsOf(metricsBody.value) == Ok(Some(metrics))
    ensures StatusOf(metrics) == Ok(status)
    ensures data == Wrap(name, status)
    ensures Reflects(status, Assignments(Pairs(metrics)))
  {
    name := HostName(hostBody.value).value;
    metrics := MetricsOf(metricsBody.value).value.value;
    status := StatusOf(metrics).value;
    StatusOfReflects(metrics, status);
  }
}
