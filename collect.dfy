/** The observation callbacks `collect_host_metrics` and
    `collect_database_metrics`. Each is a generator over the data a fetch
    returned; here it is a function giving the observations it yields, in
    order, and whether it then raised instead of finishing. Python's
    `float(...)` is the parameter `toFloat`, with `None` for a value it
    rejects with ValueError or TypeError. */
module Collect {
  import opened PyJson
  import opened Dict
  import opened MetricStatus
  import opened Fetch

  datatype Observation = Observation(value: real, attributes: seq<(string, Json)>)

  /** What a generator produced: the observations it yielded, and whether it
      ended by raising. */
  datatype Gen = Gen(yielded: seq<Observation>, raised: bool)

  const Finished := Gen([], false)

  /** Runs `g1` and then, unless it raised, `g2`. */
  function Then(g1: Gen, g2: Gen): Gen {
    if g1.raised then g1 else Gen(g1.yielded + g2.yielded, g2.raised)
  }

  /** The fixed attribute map of an observation; `entityKey` is "host" or
      "database", and both collectors label the source "database". */
  function Attributes(entityKey: string, entity: Json, metricName: string): seq<(string, Json)> {
    [("source", JStr("database")), (entityKey, entity),
     ("metric_name", JStr(metricName)), ("unit", JStr("1"))]
  }

  /** The inner loop over `status.items()`: one observation per pair whose
      value converts, in status order; a pair that does not convert is
      skipped and the loop goes on. */
  function Observe(entityKey: string, entity: Json, status: seq<(string, Json)>, toFloat: Json -> Option<real>)
    : (r: seq<Observation>)
    ensures |r| <= |status|
    ensures forall o :: o in r ==>
      exists i :: 0 <= i < |status| && toFloat(status[i].1) == Some(o.value) &&
        o.attributes == Attributes(entityKey, entity, status[i].0)
    ensures forall i :: 0 <= i < |status| && toFloat(status[i].1).Some? ==>
      Observation(toFloat(status[i].1).value, Attributes(entityKey, entity, status[i].0)) in r
  {
    if status == [] then [] else
    var rest := Observe(entityKey, entity, status[1..], toFloat);
    match toFloat(status[0].1)
    case Some(x) => [Observation(x, Attributes(entityKey, entity, status[0].0))] + rest
    case None => rest
  }

  /** One list item: its `nameref` (or "unknown" when the key is absent) and
      the observations of its `status` dict, if it has one. */
  function CollectItem(entityKey: string, item: Json, toFloat: Json -> Option<real>): Gen {
    match Get(item, "nameref", JStr("unknown"))
    case Raise(_) => Gen([], true)
    case Ok(entity) =>
      match Contains("status", item)
      case Raise(_) => Gen([], true)
      case Ok(false) => Finished
      case Ok(true) =>
        match Index(item, "status")
        case Raise(_) => Gen([], true)
        case Ok(status) =>
          match Items(status)
          case Raise(_) => Gen([], true)
          case Ok(pairs) => Gen(Observe(entityKey, entity, pairs, toFloat), false)
  }

  /** The outer loop over the list items. */
  function CollectItems(entityKey: string, items: seq<Json>, toFloat: Json -> Option<real>): Gen {
    if items == [] then Finished
    else Then(CollectItem(entityKey, items[0], toFloat), CollectItems(entityKey, items[1..], toFloat))
  }

  /** `data[listKey]['list-items'].get('list-item', [])`, iterated. */
  function ListItems(listKey: string, data: Json): Result<seq<Json>> {
    var list :- Index(data, listKey);
    var listItems :- Index(list, "list-items");
    var items :- Get(listItems, "list-item", JArr([]));
    Iterate(items)
  }

  /** Both collectors: nothing unless `data` is truthy and holds `listKey`. */
  function Collect(listKey: string, entityKey: string, data: Option<Json>, toFloat: Json -> Option<real>): Gen {
    if data.None? || !Truthy(data.value) then Finished else
    match Contains(listKey, data.value)
    case Raise(_) => Gen([], true)
    case Ok(false) => Finished
    case Ok(true) =>
      match ListItems(listKey, data.value)
      case Raise(_) => Gen([], true)
      case Ok(items) => CollectItems(entityKey, items, toFloat)
  }

  function CollectHostMetrics(data: Option<Json>, toFloat: Json -> Option<real>): Gen {
    Collect("host-default-list", "host", data, toFloat)
  }

  function CollectDatabaseMetrics(data: Option<Json>, toFloat: Json -> Option<real>): Gen {
    Collect("database-default-list", "database", data, toFloat)
  }

  /** Observing a concatenation observes the parts one after the other. */
  lemma {:induction false} ObserveAppend(entityKey: string, entity: Json, a: seq<(string, Json)>, b: seq<(string, Json)>,
                                         toFloat: Json -> Option<real>)
    ensures Observe(entityKey, entity, a + b, toFloat) ==
      Observe(entityKey, entity, a, toFloat) + Observe(entityKey, entity, b, toFloat)
  {
    if a == [] {
      assert a + b == b;
    } else {
      assert (a + b)[1..] == a[1..] + b;
      ObserveAppend(entityKey, entity, a[1..], b, toFloat);
    }
  }

  /** A value that does not convert is skipped, and the pairs after it are
      still observed. */
  lemma SkipUnconvertible(entityKey: string, entity: Json, a: seq<(string, Json)>, p: (string, Json),
                          b: seq<(string, Json)>, toFloat: Json -> Option<real>)
    requires toFloat(p.1).None?
    ensures Observe(entityKey, entity, a + [p] + b, toFloat) ==
      Observe(entityKey, entity, a, toFloat) + Observe(entityKey, entity, b, toFloat)
  {
    ObserveAppend(entityKey, entity, a + [p], b, toFloat);
    ObserveAppend(entityKey, entity, a, [p], toFloat);
  }

  /** Falsy data, or data without the collector's list key, yields nothing. */
  lemma CollectNothing(listKey: string, entityKey: string, data: Option<Json>, toFloat: Json -> Option<real>)
    ensures data.None? ==> Collect(listKey, entityKey, data, toFloat) == Finished
    ensures data.Some? && !Truthy(data.value) ==> Collect(listKey, entityKey, data, toFloat) == Finished
    ensures data.Some? && data.value.JObj? && Lookup(data.value.fields, listKey).None? ==>
      Collect(listKey, entityKey, data, toFloat) == Finished
  {
  }

  /** A list item that is a dict with a `status` dict yields the observations
      of that dict, labelled with its `nameref` when the key is present (even
      when its value is `None`) and with "unknown" only when it is absent. */
  lemma CollectItemOfDict(entityKey: string, item: seq<(string, Json)>, status: seq<(string, Json)>,
                          toFloat: Json -> Option<real>)
    requires Lookup(item, "status") == Some(JObj(status))
    ensures Lookup(item, "nameref").None? ==>
      CollectItem(entityKey, JObj(item), toFloat) == Gen(Observe(entityKey, JStr("unknown"), status, toFloat), false)
    ensures Lookup(item, "nameref").Some? ==>
      CollectItem(entityKey, JObj(item), toFloat) ==
        Gen(Observe(entityKey, Lookup(item, "nameref").value, status, toFloat), false)
  {
  }

  /** An item that is not a dict has no `get`: the collector raises. */
  lemma CollectItemOfNonDict(entityKey: string, item: Json, toFloat: Json -> Option<real>)
    requires !item.JObj?
    ensures CollectItem(entityKey, item, toFloat) == Gen([], true)
  {
  }

  /** A `list-item` that is a non-empty dict is iterated by its keys, which
      are strings without `get`: the collector raises before yielding. */
  lemma CollectOverDictListItem(listKey: string, entityKey: string, fs: seq<(string, Json)>,
                                toFloat: Json -> Option<real>)
    requires fs != []
    ensures Collect(listKey, entityKey, Some(JObj([(listKey, JObj([("list-items", JObj([("list-item", JObj(fs))]))]))])),
                    toFloat) == Gen([], true)
  {
    var data := JObj([(listKey, JObj([("list-items", JObj([("list-item", JObj(fs))]))]))]);
    var items := ListItems(listKey, data).value;
    assert items[0] == JStr(fs[0].0);
    CollectItemOfNonDict(entityKey, items[0], toFloat);
  }

  /** On fetched data the host collector yields the observations of the
      status dict, labelled with the wrapped host name, and never raises. */
  lemma CollectHostOfWrap(name: Json, status: Dict, toFloat: Json -> Option<real>)
    ensures CollectHostMetrics(Some(Wrap(name, status)), toFloat) == Gen(Observe("host", name, status, toFloat), false)
  {
    var item := JObj([("nameref", name), ("status", JObj(status))]);
    var data := Wrap(name, status);
    assert ListItems("host-default-list", data) == Ok([item]);
    assert Lookup(item.fields, "nameref") == Some(name);
    assert Lookup(item.fields, "status") == Some(JObj(status));
    assert CollectItems("host", [item], toFloat) == Then(CollectItem("host", item, toFloat), Finished);
  }

  /** The database collector looks for a key the fetch never produces. */
  lemma CollectDatabaseOfWrap(name: Json, status: Dict, toFloat: Json -> Option<real>)
    ensures CollectDatabaseMetrics(Some(Wrap(name, status)), toFloat) == Finished
  {
  }

  /** Whatever the replies, the database collector yields nothing. */
  lemma DatabaseCollectorSilent(hostStatus: int, hostBody: Option<Json>, metricsStatus: int, metricsBody: Option<Json>,
                                toFloat: Json -> Option<real>)
    ensures CollectDatabaseMetrics(FetchResult(hostStatus, hostBody, metricsStatus, metricsBody), toFloat) == Finished
  {
    var data := FetchResult(hostStatus, hostBody, metricsStatus, metricsBody);
    if data.Some? {
      var name, metrics, status := FetchResultShape(hostStatus, hostBody, metricsStatus, metricsBody, data.value);
      CollectDatabaseOfWrap(name, status, toFloat);
    }
  }

  /** End to end: the host collector on a successful fetch yields, for each
      metric name that was stored, in first-stored order, one observation of
      its stored value when that converts, and never raises. */
  lemma HostCollectorOnFetch(hostStatus: int, hostBody: Option<Json>, metricsStatus: int, metricsBody: Option<Json>,
                             toFloat: Json -> Option<real>, data: Json)
    returns (name: Json, metrics: seq<Json>, status: Dict)
    requires FetchResult(hostStatus, hostBody, metricsStatus, metricsBody) == Some(data)
    ensures hostBody.Some? && HostName(hostBody.value) == Ok(name)
    ensures metricsBody.Some? && MetricsOf(metricsBody.value) == Ok(Some(metrics))
    ensures Reflects(status, Assignments(Pairs(metrics)))
    ensures CollectHostMetrics(Some(data), toFloat) == Gen(Observe("host", name, status, toFloat), false)
  {
    name, metrics, status := FetchResultShape(hostStatus, hostBody, metricsStatus, metricsBody, data);
    CollectHostOfWrap(name, status, toFloat);
  }
}
