/** The statistics dashboard of src/pages/Stats/index.tsx. */
module StatsPage {
  import opened Wrappers
  import opened ApiHandler

  /**
   * A `Record<string, number>` as `Object.entries` enumerates it: its
   * (key, count) entries in enumeration order.
   */
  type Entries = seq<(string, int)>

  /** What every JavaScript object satisfies: no key is listed twice. */
  ghost predicate IsObject(e: Entries)
  {
    forall i, j :: 0 <= i < j < |e| ==> e[i].0 != e[j].0
  }

  /** The mapping the entries list. */
  function ToMap(e: Entries): map<string, int>
  {
    if e == [] then map[] else ToMap(e[1..])[e[0].0 := e[0].1]
  }

  /** One chart datum. */
  datatype Datum = Datum(name: string, value: int)

  /** `transform(obj)`: `Object.entries(obj).map(([key, value]) => ({name: key, value}))`. */
  function Transform(e: Entries): seq<Datum>
  {
    if e == [] then [] else [Datum(e[0].0, e[0].1)] + Transform(e[1..])
  }

  /** The mapping a list of chart data describes; for a repeated name the earlier datum wins, as in `ToMap`. */
  function FromData(data: seq<Datum>): map<string, int>
  {
    if data == [] then map[] else FromData(data[1..])[data[0].name := data[0].value]
  }

  /**
   * One datum per entry, in enumeration order, each naming its key and
   * carrying that key's count.
   */
  lemma {:induction false} TransformAt(e: Entries)
    ensures |Transform(e)| == |e|
    ensures forall k :: 0 <= k < |e| ==> Transform(e)[k] == Datum(e[k].0, e[k].1)
  {
    if e != [] {
      TransformAt(e[1..]);
      forall k | 1 <= k < |e| ensures Transform(e)[k] == Datum(e[k].0, e[k].1) {
        assert Transform(e)[k] == Transform(e[1..])[k - 1];
      }
    }
  }

  /** Reading the chart data back gives the mapping that was transformed. */
  lemma {:induction false} TransformRoundTrip(e: Entries)
    ensures FromData(Transform(e)) == ToMap(e)
  {
    if e != [] {
      TransformRoundTrip(e[1..]);
      assert Transform(e)[1..] == Transform(e[1..]);
    }
  }

  /** The keys of the mapping are the listed keys. */
  lemma {:induction false} ToMapKeys(e: Entries)
    ensures forall key :: key in ToMap(e) <==> exists k :: 0 <= k < |e| && e[k].0 == key
  {
    if e != [] {
      var rest := e[1..];
      ToMapKeys(rest);
      forall key | key in ToMap(e) ensures exists k :: 0 <= k < |e| && e[k].0 == key {
        if key != e[0].0 {
          assert ToMap(e) == ToMap(rest)[e[0].0 := e[0].1];
          assert key in ToMap(rest);
          var k :| 0 <= k < |rest| && rest[k].0 == key;
          assert e[k + 1].0 == key;
        }
      }
      forall key | (exists k :: 0 <= k < |e| && e[k].0 == key) ensures key in ToMap(e) {
        var k :| 0 <= k < |e| && e[k].0 == key;
        if k > 0 {
          assert rest[k - 1].0 == key;
        }
      }
    }
  }

  /**
   * For an object, the chart has exactly as many data as the object has
   * keys, and each datum's value is its key's count.
   */
  lemma {:induction false} TransformCount(e: Entries)
    requires IsObject(e)
    ensures |Transform(e)| == |ToMap(e)|
    ensures forall k :: 0 <= k < |e| ==> e[k].0 in ToMap(e) && ToMap(e)[e[k].0] == e[k].1
  {
    TransformAt(e);
    if e != [] {
      var rest := e[1..];
      assert IsObject(rest) by {
        forall i, j | 0 <= i < j < |rest| ensures rest[i].0 != rest[j].0 {
          assert rest[i] == e[i + 1] && rest[j] == e[j + 1];
        }
      }
      TransformCount(rest);
      TransformAt(rest);
      ToMapKeys(rest);
      assert e[0].0 !in ToMap(rest) by {
        forall k | 0 <= k < |rest| ensures rest[k].0 != e[0].0 {
          assert rest[k] == e[k + 1];
        }
      }
      assert |ToMap(e)| == |ToMap(rest)| + 1 by {
        assert ToMap(e).Keys == ToMap(rest).Keys + {e[0].0};
      }
      forall k | 1 <= k < |e| ensures e[k].0 in ToMap(e) && ToMap(e)[e[k].0] == e[k].1 {
        assert e[k] == rest[k - 1];
        assert e[k].0 != e[0].0;
      }
    }
  }

  /** The chart palette. */
  const Colors: seq<string> := ["#3b82f6", "#10b981", "#f59e0b", "#ef4444", "#8b5cf6", "#ec4899"]

  /** `COLORS[index % COLORS.length]`: the colour of a chart's `index`-th slice. */
  function ColorAt(index: nat): (c: string)
    ensures c in Colors
  {
    Colors[index % |Colors|]
  }

  /** Slices get the same colour exactly when their positions agree modulo 6: colours cycle with period 6. */
  lemma ColorsCycle(i: nat, j: nat)
    ensures ColorAt(i) == ColorAt(j) <==> i % 6 == j % 6
    ensures ColorAt(i + 6) == ColorAt(i)
  {
    assert |Colors| == 6;
    var a, b := i % 6, j % 6;
    if a != b {
      assert Colors[a][1] != Colors[b][1] || Colors[a][2] != Colors[b][2];
    }
  }

  /** The `StatsResponse` body. */
  datatype StatsResponse = StatsResponse(
    total_applications: int,
    status_breakdown: Entries,
    role_breakdown: Entries,
    monthly_trend: Entries)

  /** The pie and bar data the charts are drawn from. */
  datatype Charts = Charts(total: int, statusData: seq<Datum>, roleData: seq<Datum>, monthlyData: seq<Datum>)

  /** What the page renders: skeletons, the charts, or the failure text. */
  datatype StatsView = Skeletons | Drawn(charts: Charts) | FailedToLoad

  function ChartsOf(s: StatsResponse): Charts
  {
    Charts(s.total_applications, Transform(s.status_breakdown), Transform(s.role_breakdown), Transform(s.monthly_trend))
  }

  /** The state of the dashboard. */
  class Dashboard {
    var stats: Option<StatsResponse>
    var loading: bool

    /** The dashboard as mounted: nothing loaded, loading. */
    constructor ()
      ensures stats == None && loading
    {
      stats, loading := None, true;
    }

    /** The view follows `loading` first, then whether stats were loaded. */
    function View(): (v: StatsView)
      reads this
      ensures v == Skeletons <==> loading
      ensures v.Drawn? <==> !loading && stats.Some?
      ensures v.Drawn? ==> v.charts == ChartsOf(stats.value)
    {
      if loading then Skeletons
      else match stats
        case Some(s) => Drawn(ChartsOf(s))
        case None => FailedToLoad
    }

    /** The fetch settles: the stats on success, and loading ends whatever the outcome. */
    method Settle(reply: Outcome<StatsResponse>)
      modifies this
      ensures !loading
      ensures stats == if reply.Ok? then Some(reply.value) else old(stats)
      ensures reply.Ok? ==> View() == Drawn(ChartsOf(reply.value))
      ensures reply.Err? && old(stats) == None ==> View() == FailedToLoad
    {
      if reply.Ok? {
        stats := Some(reply.value);
      }
      loading := false;
    }
  }
}
