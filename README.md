# MarkLogic metrics collection, modelled in Dafny

`marklogic_honeycomb_metrics.py` polls the MarkLogic Management API and
publishes the counters to Honeycomb through OpenTelemetry. The one piece with
logic of its own is the shaping of the API's JSON:

- `fetch_metric` reads the host name from the default view of `/manage/v2/hosts`.
- It then walks the metrics view (`host-metrics-list` → `metrics-relations`
  → `host-metrics-list` → `metrics`). For each metric name it keeps the
  `value` of the last `summary.data.entry` element, in an insertion-ordered
  `status_data` dict where a later metric of the same name overwrites an
  earlier one.
- It re-wraps the result as a default view with one `list-item`.
- The observable-gauge callbacks `collect_host_metrics` and
  `collect_database_metrics` turn each `status` pair whose value converts
  with `float` into an observation with a fixed attribute map.

The model takes the two HTTP replies as inputs: their status codes and their
decoded bodies.

- `pyjson.dfy` (module `PyJson`) holds decoded JSON, with objects as ordered
  key/value sequences. It also holds the Python operations the script applies
  to JSON: `in`, `[key]`, `.get`, `.items()`, iteration, `[0]`, `[-1]` and
  truthiness. Each one either gives a value or raises a named exception.
- `dict.dfy` (module `Dict`) holds the assignment `d[k] = v` on an
  insertion-ordered dict. It also gives an independent description
  (`Reflects`) of the dict that a sequence of assignments leaves behind:
  - the keys are distinct;
  - the keys are exactly the assigned names, in first-assignment order;
  - each key holds the value of its last assignment.
- `status.dfy` (module `MetricStatus`) covers the `status_data` loop. It is
  an imperative method, `ExtractStatus`, proved equal to the function
  `StatusOf`. Lemmas show that `StatusOf`'s result is the dict described by
  the stored assignments, and say exactly when the loop raises.
- `fetch.dfy` (module `Fetch`) covers `fetch_metric`: host-name lookup,
  metrics lookup, wrapping and every path that returns `None`. The method
  `FetchMetric` is proved equal to the function `FetchResult`.
- `collect.dfy` (module `Collect`) covers the two generators. Each becomes a
  function giving the observations yielded, in order, and whether the
  generator then raised. `float(...)` is a parameter `toFloat` that gives
  `None` where Python raises ValueError or TypeError.
- `scenarios.dfy` (module `Scenarios`) gives two worked end-to-end examples.

Facts about the code that shape the model:
- Host observations carry `source: "database"` (line 153), not a host
  label.
- Every observation has the unit `"1"` (line 156).
- Every failure inside `fetch_metric` gives no data (`None`). That covers a
  non-200 reply (lines 48-50, 124-126), a host-name lookup error (lines
  59-61), and any other exception (lines 128-131). No error is reported to
  the caller.
- Of the entries of a metric's summary, only the last one is read (line
  100).
- `collect_database_metrics` looks for `database-default-list` (line 170).
  `fetch_metric` never builds that key (lines 105-114), so this collector
  yields nothing on any fetch result (`Collect.DatabaseCollectorSilent`).

## Model

| member | source | states |
|---|---|---|
| `PyJson.Contains` | marklogic_honeycomb_metrics.py:95 | `key in x` is a key test on a dict, a membership test of the string on a list, and a substring test on a string; it raises exactly for other values |
| `PyJson.Index` | marklogic_honeycomb_metrics.py:96 | `x[key]` succeeds exactly on a dict that holds the key, and gives its value |
| `PyJson.Get` | marklogic_honeycomb_metrics.py:101 | `x.get(key, default)` needs a dict; it gives the bound value, or the default when the key is absent |
| `PyJson.Last` | marklogic_honeycomb_metrics.py:100 | `x[-1]` succeeds exactly on a non-empty list or string, giving a list's last element or a string's last character |
| `PyJson.First` | marklogic_honeycomb_metrics.py:57 | `x[0]` succeeds exactly on a non-empty list or string, giving a list's first element or a string's first character |
| `PyJson.Items` | marklogic_honeycomb_metrics.py:146 | `.items()` exists only on dicts and gives their pairs in order |
| `PyJson.Iterate` | marklogic_honeycomb_metrics.py:141 | `for x in v` visits a list's elements, a dict's keys as strings, or a string's characters, in order; other values raise |
| `Dict.Put` | marklogic_honeycomb_metrics.py:102 | `status_data[name] = value`: an existing key keeps its place and takes the new value, a new key is appended, other keys are untouched |
| `Dict.PutDistinct` | marklogic_honeycomb_metrics.py:102 | assignment never stores a key twice |
| `Dict.ReflectsKeys` | marklogic_honeycomb_metrics.py:92-102 | the keys of a described dict are exactly the assigned names |
| `Dict.PutReflects` | marklogic_honeycomb_metrics.py:102 | one more assignment keeps the dict equal to the described result of all assignments so far |
| `MetricStatus.ContributionOfDicts` | marklogic_honeycomb_metrics.py:95-102 | for dict-shaped metric info: an empty entry list stores nothing; otherwise the last entry's `value` is stored, or 0 when it has none; a non-dict last entry raises |
| `MetricStatus.ContributionAbsent` | marklogic_honeycomb_metrics.py:95-97 | no `summary`, a falsy summary, a summary without `data`, or a `data` dict without `entry` stores nothing |
| `MetricStatus.ContributionOfNonDict` | marklogic_honeycomb_metrics.py:95-96 | metric info that is a list or string raises exactly when it contains `"summary"`, and is passed over otherwise; `None`, booleans and numbers raise |
| `MetricStatus.ContributionNeedsDicts` | marklogic_honeycomb_metrics.py:95-102 | a stored value always comes from a dict chain `summary.data.entry` with a non-empty entry list, and is its last entry's `value` (default 0) |
| `MetricStatus.AddPairsOk` | marklogic_honeycomb_metrics.py:94-102 | the loop over one metric object's pairs succeeds exactly when no pair's accesses raise |
| `MetricStatus.AddPairsReflects` | marklogic_honeycomb_metrics.py:94-102 | the loop over one metric object's pairs performs exactly that object's stored assignments |
| `MetricStatus.StatusOfOk` | marklogic_honeycomb_metrics.py:92-102 | building `status_data` fails exactly when some metric is not a dict or some pair raises |
| `MetricStatus.StatusOfReflects` | marklogic_honeycomb_metrics.py:92-102 | the key set of `status_data` is exactly the names that stored a value; keys are in first-store order; each holds the value from the last metric that stored it |
| `MetricStatus.LaterMetricWins` | marklogic_honeycomb_metrics.py:93-102 | in the last metric object, the last pair with a given name that stores a value decides that name's value in `status_data`, whatever earlier objects stored |
| `MetricStatus.AddMetricPairs` | marklogic_honeycomb_metrics.py:94-102 | the inner loop over one metric object's pairs computes `AddPairs`, raising where it raises |
| `MetricStatus.ExtractStatus` | marklogic_honeycomb_metrics.py:92-102 | the nested loop computes `StatusOf` (raising where it raises), and its result is the dict described by the stored assignments |
| `Fetch.MetricList` | marklogic_honeycomb_metrics.py:83-89 | `len`, `[:3]` and the debug loop succeed exactly on a list whose first three elements are dicts, which passes unchanged, or on the empty string, which is an empty list |
| `Fetch.MetricsOfPath` | marklogic_honeycomb_metrics.py:79-89 | along the dict path `host-metrics-list.metrics-relations.host-metrics-list.metrics`, the metrics list is returned unchanged when its first three elements are dicts, and raises otherwise |
| `Fetch.FetchOfMetricsPath` | marklogic_honeycomb_metrics.py:76-122 | with both replies 200 and a host name found, the data wraps the `status_data` built from that metrics list, and there is no data exactly when building it raises |
| `Fetch.FetchMetric` | marklogic_honeycomb_metrics.py:25-131 | `fetch_metric` on the two replies gives exactly `FetchResult` |
| `Fetch.HostNameOfList` | marklogic_honeycomb_metrics.py:53-61 | the host name is the first host item's `nameref`; it is `None` when the list is empty or the key is absent; a non-dict first item raises |
| `Fetch.HostNameMissingKeys` | marklogic_honeycomb_metrics.py:54-61 | a missing key, or a value that is not a dict, anywhere on `host-default-list.list-items.list-item` raises |
| `Fetch.HostNameOfWrap` | marklogic_honeycomb_metrics.py:105-114 | the wrapped data reads back, through the host-name lookup, as the host name that was wrapped |
| `Fetch.FetchNoData` | marklogic_honeycomb_metrics.py:48-131 | no data on a non-200 host or metrics reply, a failing host lookup, a missing `host-metrics-list`, or a list without `metrics-relations` (the implicit `None`) |
| `Fetch.FetchNoDataWithoutInnerList` | marklogic_honeycomb_metrics.py:81-83 | `metrics-relations` without `host-metrics-list` raises KeyError and gives no data |
| `Fetch.FetchWithoutMetricsKey` | marklogic_honeycomb_metrics.py:83 | a missing `metrics` key gives a result with an empty status |
| `Fetch.FetchResultShape` | marklogic_honeycomb_metrics.py:105-122 | every result has exactly one list item, holding the looked-up host name and the `status_data` dict described by `StatusOfReflects` |
| `Collect.Observe` | marklogic_honeycomb_metrics.py:146-162 | every observation comes from a status pair whose value converts, with that value and the fixed attributes; every converting pair gives one; there are no more observations than pairs |
| `Collect.ObserveAppend` | marklogic_honeycomb_metrics.py:146-159 | observations come out in status order |
| `Collect.SkipUnconvertible` | marklogic_honeycomb_metrics.py:147-162 | a value that does not convert is skipped and the pairs after it are still observed |
| `Collect.CollectNothing` | marklogic_honeycomb_metrics.py:139 | no data, falsy data, or data lacking the collector's list key yields nothing |
| `Collect.CollectItemOfDict` | marklogic_honeycomb_metrics.py:141-157 | an item's observations are labelled with its `nameref` when present (even `None`), and with `"unknown"` only when the key is absent |
| `Collect.CollectItemOfNonDict` | marklogic_honeycomb_metrics.py:142 | a list item that is not a dict has no `get`: the collector raises |
| `Collect.CollectOverDictListItem` | marklogic_honeycomb_metrics.py:140-142 | a non-empty dict as `list-item` is iterated by its key strings, so the collector raises before yielding |
| `Collect.CollectHostOfWrap` | marklogic_honeycomb_metrics.py:138-162 | on wrapped data the host collector yields the status dict's observations under the wrapped host name, and does not raise |
| `Collect.CollectDatabaseOfWrap` | marklogic_honeycomb_metrics.py:170 | on wrapped data the database collector yields nothing |
| `Collect.DatabaseCollectorSilent` | marklogic_honeycomb_metrics.py:164-193 | on every fetch result the database collector yields nothing |
| `Collect.HostCollectorOnFetch` | marklogic_honeycomb_metrics.py:133-162 | on every successful fetch the host collector yields the observations of the described `status_data`, under the looked-up host name, and does not raise |
| `Scenarios.OneEntryOneObservation` | marklogic_honeycomb_metrics.py:92-162 | a metric with one entry holding "12.5" on host "node1" gives exactly one observation, 12.5, with the fixed attributes |
| `Scenarios.EmptyEntriesNoObservation` | marklogic_honeycomb_metrics.py:97-99 | a metric with an empty entry list gives no observation |

## Left out

- HTTP requests through the `marklogic` client with digest authentication
  (lines 23, 42-46, 64-74). Only each reply's status code and decoded body
  are inputs. A body that is not valid JSON is `None`.
- An exception raised by the client call itself (a network failure) is not
  modelled. The same outer handler would turn it into `None`.
- The `resource_type` argument only changes the request path. Both fetches
  read the same `host-*` keys, so the model has no such parameter.
- Clock reads and the `start`/`end` and URL strings (lines 32-39). They
  depend on wall-clock time and only feed the requests.
- All `print` and traceback output. The debug loop over the first three
  metrics (lines 86-89) is modelled only for the exceptions it can raise.
- The OpenTelemetry exporters, readers, resource, meter provider, gauge
  registration and `VerboseConsoleMetricExporter` (lines 195-266). These are
  library wiring.
- `main` (lines 268-307). It is a sleep-and-flush loop, and it raises
  NameError at line 277 because line 276 is commented out.
- Floating-point parsing in `float(...)`. It is the parameter `toFloat`.
  `float` raising OverflowError on a huge integer is not modelled; it would
  escape the generator.
- JSON numbers are one kind, `JNum` (a real). Python's split into int and
  float does not matter to any path here.
- JSON objects keep every key they are given. A lookup takes the first
  binding, which is the only one in a decoded dict.
- Slicing a dict (`metrics[:3]`) raises TypeError or KeyError depending on
  the Python version. The model records TypeError; both give no data.
- A generator is lazy. The model gives the whole finite sequence of what it
  yields, plus whether it ended by raising.
