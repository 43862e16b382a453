/** The heart of `fetch_metric`: turning the list of metric objects of the
    metrics view into the `status_data` dict (one value per metric name, the
    value of the metric's latest summary entry). */
module MetricStatus {
  import opened PyJson
  import opened Dict

  /** What one `(metric_name, metric_info)` pair adds to `status_data`:
      `Ok(None)` when the pair is passed over, `Ok(Some(v))` when `v` is stored
      under the name, `Raise` when an access raises (and the fetch gives up). */
  function Contribution(info: Json): Result<Option<Json>> {
    var hasSummary :- Contains("summary", info);
    if !hasSummary then Ok(None) else
    var summary :- Index(info, "summary");
    if !Truthy(summary) then Ok(None) else
    var hasData :- Contains("data", summary);
    if !hasData then Ok(None) else
    var data :- Index(summary, "data");
    var hasEntry :- Contains("entry", data);
    if !hasEntry then Ok(None) else
    var entries :- Index(data, "entry");
    if !Truthy(entries) then Ok(None) else
    var latest :- Last(entries);
    var value :- Get(latest, "value", JNum(0.0));
    Ok(Some(value))
  }

  /** Runs the inner loop over the pairs of one metric object, starting from
      the dict `d`. */
  function AddPairs(d: Dict, ps: seq<(string, Json)>): Result<Dict> {
    if ps == [] then Ok(d) else
    var before :- AddPairs(d, ps[..|ps| - 1]);
    var c :- Contribution(ps[|ps| - 1].1);
    if c.Some? then Ok(Put(before, ps[|ps| - 1].0, c.value)) else Ok(before)
  }

  /** `status_data` after the outer loop over the metric objects; an element
      that is not a dict has no `items` and raises AttributeError. */
  function StatusOf(metrics: seq<Json>): Result<Dict> {
    if metrics == [] then Ok([]) else
    var before :- StatusOf(metrics[..|metrics| - 1]);
    match metrics[|metrics| - 1]
    case JObj(ps) => AddPairs(before, ps)
    case _ => Raise(AttributeError)
  }

  /** All `(metric_name, metric_info)` pairs of the metric objects, in loop order. */
  function Pairs(metrics: seq<Json>): seq<(string, Json)> {
    if metrics == [] then [] else
    Pairs(metrics[..|metrics| - 1]) +
      (match metrics[|metrics| - 1] case JObj(ps) => ps case _ => [])
  }

  /** The assignments `status_data[name] = value` the pairs make, in order. */
  function Assignments(ps: seq<(string, Json)>): seq<(string, Json)> {
    if ps == [] then [] else
    Assignments(ps[..|ps| - 1]) +
      (match Contribution(ps[|ps| - 1].1)
       case Ok(Some(v)) => [(ps[|ps| - 1].0, v)]
       case _ => [])
  }

  ghost predicate AllObjects(metrics: seq<Json>) {
    forall i :: 0 <= i < |metrics| ==> metrics[i].JObj?
  }

  ghost predicate NoneRaises(ps: seq<(string, Json)>) {
    forall i :: 0 <= i < |ps| ==> Contribution(ps[i].1).Ok?
  }

  /** A pair is stored exactly when `summary` is present and truthy, its
      `data` holds an `entry` key, and the entry list is non-empty; what is
      stored is the last entry's `value`, or 0 when it has none. Earlier
      entries never matter. */
  lemma ContributionOfDicts(f: seq<(string, Json)>, sf: seq<(string, Json)>, df: seq<(string, Json)>, es: seq<Json>)
    requires Lookup(f, "summary") == Some(JObj(sf)) && sf != []
    requires Lookup(sf, "data") == Some(JObj(df))
    requires Lookup(df, "entry") == Some(JArr(es))
    ensures es == [] ==> Contribution(JObj(f)) == Ok(None)
    ensures es != [] && es[|es| - 1].JObj? ==>
      Contribution(JObj(f)) == Ok(Some(Lookup(es[|es| - 1].fields, "value").GetOr(JNum(0.0))))
    ensures es != [] && !es[|es| - 1].JObj? ==> Contribution(JObj(f)).Raise?
  {
  }

  /** Pairs passed over: no `summary` key, a falsy summary, no `data` key, or
      a `data` dict without `entry`. */
  lemma ContributionAbsent(f: seq<(string, Json)>)
    ensures Lookup(f, "summary").None? ==> Contribution(JObj(f)) == Ok(None)
    ensures Lookup(f, "summary").Some? && !Truthy(Lookup(f, "summary").value) ==>
      Contribution(JObj(f)) == Ok(None)
    ensures (Lookup(f, "summary").Some? && Lookup(f, "summary").value.JObj? &&
             Truthy(Lookup(f, "summary").value) &&
             Lookup(Lookup(f, "summary").value.fields, "data").None?) ==>
            Contribution(JObj(f)) == Ok(None)
    ensures forall sf, df ::
      (Lookup(f, "summary") == Some(JObj(sf)) && sf != [] &&
       Lookup(sf, "data") == Some(JObj(df)) && Lookup(df, "entry").None?) ==>
      Contribution(JObj(f)) == Ok(None)
  {
  }

  /** Metric info that is not a dict: `'summary' in info` is a membership
      test on a list and a substring test on a string; when it holds,
      `info['summary']` raises, and otherwise the pair is passed over. Other
      values do not support `in`. */
  lemma ContributionOfNonDict(info: Json)
    ensures info.JArr? ==> (Contribution(info).Raise? <==> JStr("summary") in info.items)
    ensures info.JArr? && JStr("summary") !in info.items ==> Contribution(info) == Ok(None)
    ensures info.JStr? ==> (Contribution(info).Raise? <==> IsSubstring("summary", info.s))
    ensures info.JStr? && !IsSubstring("summary", info.s) ==> Contribution(info) == Ok(None)
    ensures info.JNull? || info.JBool? || info.JNum? ==> Contribution(info) == Raise(TypeError)
  {
  }

  /** Whatever is stored came out of a chain of dicts ending in a non-empty
      entry list whose last element is a dict. */
  lemma ContributionNeedsDicts(info: Json, v: Json)
    requires Contribution(info) == Ok(Some(v))
    ensures info.JObj?
    ensures var s := Lookup(info.fields, "summary");
      s.Some? && s.value.JObj? && s.value.fields != [] &&
      var d := Lookup(s.value.fields, "data");
      d.Some? && d.value.JObj? &&
      var e := Lookup(d.value.fields, "entry");
      e.Some? && e.value.JArr? && e.value.items != [] &&
      var last := e.value.items[|e.value.items| - 1];
      last.JObj? && v == Lookup(last.fields, "value").GetOr(JNum(0.0))
  {
  }

  lemma {:induction false} AssignmentsAppend(a: seq<(string, Json)>, b: seq<(string, Json)>)
    ensures Assignments(a + b) == Assignments(a) + Assignments(b)
  {
    if b == [] {
      assert a + b == a;
    } else {
      var pre, p := b[..|b| - 1], b[|b| - 1];
      var step := match Contribution(p.1) case Ok(Some(v)) => [(p.0, v)] case _ => [];
      assert (a + b)[..|a + b| - 1] == a + pre;
      assert (a + b)[|a + b| - 1] == p;
      assert Assignments(a + b) == Assignments(a + pre) + step;
      AssignmentsAppend(a, pre);
      assert Assignments(b) == Assignments(pre) + step;
    }
  }

  /** The inner loop succeeds exactly when no pair raises, whatever dict it
      starts from. */
  lemma {:induction false} AddPairsOk(d: Dict, ps: seq<(string, Json)>)
    ensures AddPairs(d, ps).Ok? <==> NoneRaises(ps)
  {
    if ps != [] {
      AddPairsOk(d, ps[..|ps| - 1]);
    }
  }

  /** The inner loop performs the pairs' assignments on `d`. */
  lemma {:induction false} AddPairsReflects(d0: Dict, cs0: seq<(string, Json)>, ps: seq<(string, Json)>, d: Dict)
    requires Reflects(d0, cs0)
    requires AddPairs(d0, ps) == Ok(d)
    ensures Reflects(d, cs0 + Assignments(ps))
  {
    if ps == [] {
      assert cs0 + Assignments(ps) == cs0;
    } else {
      var pre, p := ps[..|ps| - 1], ps[|ps| - 1];
      var before := AddPairs(d0, pre).value;
      AddPairsReflects(d0, cs0, pre, before);
      var c := Contribution(p.1);
      assert Assignments(ps) == Assignments(pre) + (if c.Ok? && c.value.Some? then [(p.0, c.value.value)] else []);
      if c.Ok? && c.value.Some? {
        PutReflects(before, cs0 + Assignments(pre), p.0, c.value.value);
        assert cs0 + Assignments(ps) == cs0 + Assignments(pre) + [(p.0, c.value.value)];
      } else {
        assert cs0 + Assignments(ps) == cs0 + Assignments(pre);
      }
    }
  }

  lemma NoneRaisesAppend(a: seq<(string, Json)>, b: seq<(string, Json)>)
    ensures NoneRaises(a + b) <==> NoneRaises(a) && NoneRaises(b)
  {
    if NoneRaises(a + b) {
      forall i | 0 <= i < |a| ensures Contribution(a[i].1).Ok? {
        assert (a + b)[i] == a[i];
      }
      forall i | 0 <= i < |b| ensures Contribution(b[i].1).Ok? {
        assert (a + b)[|a| + i] == b[i];
      }
    }
  }

  /** The outer loop fails exactly when some metric is not a dict or some
      pair raises. */
  lemma {:induction false} StatusOfOk(metrics: seq<Json>)
    ensures StatusOf(metrics).Ok? <==> AllObjects(metrics) && NoneRaises(Pairs(metrics))
  {
    if metrics != [] {
      var pre, m := metrics[..|metrics| - 1], metrics[|metrics| - 1];
      StatusOfOk(pre);
      assert AllObjects(metrics) <==> AllObjects(pre) && m.JObj?;
      if m.JObj? {
        assert Pairs(metrics) == Pairs(pre) + m.fields;
        NoneRaisesAppend(Pairs(pre), m.fields);
        if StatusOf(pre).Ok? {
          AddPairsOk(StatusOf(pre).value, m.fields);
        }
      }
    }
  }

  /** `status_data` holds one key per metric name that was assigned, keyed in
      first-assignment order, each with the value of its last assignment:
      a later metric object overrides an earlier one with the same name. */
  lemma {:induction false} StatusOfReflects(metrics: seq<Json>, d: Dict)
    requires StatusOf(metrics) == Ok(d)
    ensures Reflects(d, Assignments(Pairs(metrics)))
  {
    if metrics == [] {
    } else {
      var pre, m := metrics[..|metrics| - 1], metrics[|metrics| - 1];
      var before := StatusOf(pre).value;
      StatusOfReflects(pre, before);
      assert Pairs(metrics) == Pairs(pre) + m.fields;
      AssignmentsAppend(Pairs(pre), m.fields);
      AddPairsReflects(before, Assignments(Pairs(pre)), m.fields, d);
    }
  }

  /** Assignments only ever use names of the pairs they come from. */
  lemma {:induction false} AssignmentsAvoid(ps: seq<(string, Json)>, name: string)
    requires forall j :: 0 <= j < |ps| ==> ps[j].0 != name
    ensures forall i :: 0 <= i < |Assignments(ps)| ==> Assignments(ps)[i].0 != name
  {
    if ps != [] {
      AssignmentsAvoid(ps[..|ps| - 1], name);
    }
  }

  /** Assignments to other names do not change the last value of `name`. */
  lemma {:induction false} LastValueSkip(xs: seq<(string, Json)>, ys: seq<(string, Json)>, name: string)
    requires forall i :: 0 <= i < |ys| ==> ys[i].0 != name
    ensures LastValue(xs + ys, name) == LastValue(xs, name)
  {
    if ys == [] {
      assert xs + ys == xs;
    } else {
      var pre := ys[..|ys| - 1];
      assert (xs + ys)[..|xs + ys| - 1] == xs + pre;
      LastValueSkip(xs, pre, name);
    }
  }

  /** The assignments of `ps` around a pair `ps[k]` that stores `v`. */
  lemma AssignmentsAt(ps: seq<(string, Json)>, k: nat, v: Json)
    requires k < |ps| && Contribution(ps[k].1) == Ok(Some(v))
    ensures Assignments(ps) == Assignments(ps[..k]) + [(ps[k].0, v)] + Assignments(ps[k + 1..])
  {
    var pre, p, post := ps[..k], ps[k], ps[k + 1..];
    SplitAt(ps, k);
    AssignmentsAppend(pre + [p], post);
    AssignmentsAppend(pre, [p]);
    assert [p][..0] == [];
  }

  /** `status_data` after one more metric object is described by the
      earlier assignments followed by that object's. */
  lemma StatusOfLastReflects(metrics: seq<Json>, ps: seq<(string, Json)>, d: Dict)
    requires StatusOf(metrics + [JObj(ps)]) == Ok(d)
    ensures Reflects(d, Assignments(Pairs(metrics)) + Assignments(ps))
  {
    var all := metrics + [JObj(ps)];
    StatusOfReflects(all, d);
    assert all[..|all| - 1] == metrics;
    assert Pairs(all) == Pairs(metrics) + ps;
    AssignmentsAppend(Pairs(metrics), ps);
  }

  lemma SplitAt(ps: seq<(string, Json)>, k: nat)
    requires k < |ps|
    ensures ps == ps[..k] + [ps[k]] + ps[k + 1..]
  {
  }

  /** An assignment followed only by assignments to other names decides
      the last value. */
  lemma LastValueAfter(before: seq<(string, Json)>, xs: seq<(string, Json)>, name: string, v: Json,
                       ys: seq<(string, Json)>)
    requires forall i :: 0 <= i < |ys| ==> ys[i].0 != name
    ensures LastValue(before + (xs + [(name, v)] + ys), name) == Some(v)
  {
    assert before + (xs + [(name, v)] + ys) == (before + xs + [(name, v)]) + ys;
    LastValueSkip(before + xs + [(name, v)], ys, name);
  }

  /** After earlier assignments `before`, the pairs `ps` leave under the
      name of `ps[k]` the value `ps[k]` stores, when no later pair has that
      name. */
  lemma LastPairDecides(before: seq<(string, Json)>, ps: seq<(string, Json)>, k: nat, v: Json)
    requires k < |ps| && Contribution(ps[k].1) == Ok(Some(v))
    requires forall j :: k < j < |ps| ==> ps[j].0 != ps[k].0
    ensures LastValue(before + Assignments(ps), ps[k].0) == Some(v)
  {
    var name, post := ps[k].0, ps[k + 1..];
    AssignmentsAt(ps, k, v);
    assert forall j :: 0 <= j < |post| ==> post[j] == ps[k + 1 + j];
    AssignmentsAvoid(post, name);
    LastValueAfter(before, Assignments(ps[..k]), name, v, Assignments(post));
  }

  /** The last metric object decides the value of every name it stores: the
      value stored by its last pair with that name wins over everything the
      earlier metric objects stored. */
  lemma LaterMetricWins(metrics: seq<Json>, ps: seq<(string, Json)>, k: nat, v: Json, d: Dict)
    requires k < |ps| && Contribution(ps[k].1) == Ok(Some(v))
    requires forall j :: k < j < |ps| ==> ps[j].0 != ps[k].0
    requires StatusOf(metrics + [JObj(ps)]) == Ok(d)
    ensures Lookup(d, ps[k].0) == Some(v)
  {
    StatusOfLastReflects(metrics, ps, d);
    LastPairDecides(Assignments(Pairs(metrics)), ps, k, v);
  }

  /** The inner loop of the `status_data` loop: for every pair of one metric
      object, store the latest entry's value under the pair's name in
      `statusData`. */
  method AddMetricPairs(statusData: Dict, ps: seq<(string, Json)>) returns (r: Result<Dict>)
    ensures r == AddPairs(statusData, ps)
  {
    var d := statusData;
    var j := 0;
    while j < |ps|
      invariant 0 <= j <= |ps|
      invariant AddPairs(statusData, ps[..j]) == Ok(d)
    {
      assert ps[..j + 1][..j] == ps[..j];
      var (name, info) := ps[j];
      var c := Contribution(info);
      if c.Raise? {
        AddPairsRaisesOnward(statusData, ps, j + 1);
        return Raise(c.exc);
      }
      if c.value.Some? {
        d := Put(d, name, c.value.value);
      }
      j := j + 1;
    }
    assert ps[..j] == ps;
    r := Ok(d);
  }

  /** The `status_data` loop of `fetch_metric`: for every metric object and
      every pair in it, store the latest entry's value under the pair's name. */
  method ExtractStatus(metrics: seq<Json>) returns (r: Result<Dict>)
    ensures r == StatusOf(metrics)
    ensures r.Ok? ==> Reflects(r.value, Assignments(Pairs(metrics)))
  {
    var statusData: Dict := [];
    var i := 0;
    while i < |metrics|
      invariant 0 <= i <= |metrics|
      invariant StatusOf(metrics[..i]) == Ok(statusData)
    {
      assert metrics[..i + 1][..i] == metrics[..i];
      var metricObj := metrics[i];
      if !metricObj.JObj? {
        StatusOfRaisesOnward(metrics, i + 1);
        return Raise(AttributeError);
      }
      var added := AddMetricPairs(statusData, metricObj.fields);
      if added.Raise? {
        StatusOfRaisesOnward(metrics, i + 1);
        return Raise(added.exc);
      }
      statusData := added.value;
      i := i + 1;
    }
    assert metrics[..i] == metrics;
    r := Ok(statusData);
    StatusOfReflects(metrics, statusData);
  }

  /** Once the inner loop has raised, the whole loop raises the same exception. */
  lemma {:induction false} AddPairsRaisesOnward(d: Dict, ps: seq<(string, Json)>, j: nat)
    requires j <= |ps|
    requires AddPairs(d, ps[..j]).Raise?
    ensures AddPairs(d, ps) == AddPairs(d, ps[..j])
  {
    if j < |ps| {
      var pre := ps[..|ps| - 1];
      assert pre[..j] == ps[..j];
      AddPairsRaisesOnward(d, pre, j);
    } else {
      assert ps[..j] == ps;
    }
  }

  /** Once the outer loop has raised, the whole loop raises the same exception. */
  lemma {:induction false} StatusOfRaisesOnward(metrics: seq<Json>, i: nat)
    requires i <= |metrics|
    requires StatusOf(metrics[..i]).Raise?
    ensures StatusOf(metrics) == StatusOf(metrics[..i])
  {
    if i < |metrics| {
      var pre := metrics[..|metrics| - 1];
      assert pre[..i] == metrics[..i];
      StatusOfRaisesOnward(pre, i);
    } else {
      assert metrics[..i] == metrics;
    }
  }
}
