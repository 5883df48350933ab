/** The trends-intelligence tab's comparison chart: the list of terms to
    compare, the compare button, and the merge of the returned series into
    one row per date for the line chart. */
module Trends {
  import opened Common
  import opened AnalyticsService

  const InitialTerms: seq<string> := ["Parlamentar A", "Concorrente B"]

  /** The four line colours, used in turn. */
  const SeriesColors: seq<string> := ["#8884d8", "#82ca9d", "#ffc658", "#ff8042"]

  /** The colour of the `i`-th series (`colors[i % colors.length]`). */
  function SeriesColor(i: nat): (c: string)
    ensures c in SeriesColors
  {
    SeriesColors[i % |SeriesColors|]
  }

  /** The palette repeats every four series, and two series share a colour
      exactly when their indices are congruent modulo four: no two of any
      four consecutive series look alike. */
  lemma SeriesColorSame(i: nat, j: nat)
    ensures SeriesColor(i) == SeriesColor(j) <==> i % 4 == j % 4
    ensures SeriesColor(i + 4) == SeriesColor(i)
  {
  }

  // ---- the term list ----

  /** `addTerm`'s new list, or None when the click does nothing: the raw input
      must be non-empty and not in the list, and then it is appended as it was
      typed (no trimming here). */
  function WithTerm(terms: seq<string>, input: string): (r: Option<seq<string>>)
    ensures r.None? <==> input == "" || input in terms
    ensures r.Some? ==> |r.value| == |terms| + 1 && r.value[..|terms|] == terms && r.value[|terms|] == input
  {
    if input != "" && input !in terms then Some(terms + [input]) else None
  }

  /** Adding keeps a duplicate-free list duplicate-free. */
  lemma WithTermKeepsNoDuplicates(terms: seq<string>, input: string)
    requires NoDuplicates(terms)
    ensures WithTerm(terms, input).Some? ==> NoDuplicates(WithTerm(terms, input).value)
  {
  }

  /** Removing a term just added gives the old list back. */
  lemma WithTermThenRemove(terms: seq<string>, input: string)
    requires WithTerm(terms, input).Some?
    ensures RemoveAll(WithTerm(terms, input).value, input) == terms
  {
    RemoveAllAppend(terms, [input], input);
    RemoveAllAbsent(terms, input);
  }

  /** The chart's own state. `Valid` is the invariant every handler keeps:
      the term list has no duplicates (each term is a React key). */
  class ComparisonChart {
    const days: int
    var terms: seq<string>
    var inputValue: string

    predicate Valid()
      reads this
    {
      NoDuplicates(terms)
    }

    constructor (days: int)
      ensures Valid()
      ensures this.days == days && terms == InitialTerms && inputValue == ""
    {
      this.days := days;
      terms := InitialTerms;
      inputValue := "";
    }

    method TypeInput(v: string)
      modifies this
      requires Valid()
      ensures Valid()
      ensures inputValue == v && terms == old(terms)
    {
      inputValue := v;
    }

    /** `addTerm`: the list grows by the raw input and the input is cleared,
        or nothing changes at all. */
    method AddTerm()
      modifies this
      requires Valid()
      ensures Valid()
      ensures WithTerm(old(terms), old(inputValue)).Some? ==>
                terms == WithTerm(old(terms), old(inputValue)).value && inputValue == ""
      ensures WithTerm(old(terms), old(inputValue)).None? ==>
                terms == old(terms) && inputValue == old(inputValue)
    {
      var change := WithTerm(terms, inputValue);
      WithTermKeepsNoDuplicates(terms, inputValue);
      if change.Some? {
        terms := change.value;
        inputValue := "";
      }
    }

    /** `removeTerm`: every occurrence goes, the rest keep their order. */
    method RemoveTerm(termToRemove: string)
      modifies this
      requires Valid()
      ensures Valid()
      ensures terms == RemoveAll(old(terms), termToRemove) && inputValue == old(inputValue)
    {
      RemoveAllKeepsNoDuplicates(terms, termToRemove);
      terms := RemoveAll(terms, termToRemove);
    }

    /** `handleCompare`: the comparison query is fetched, with the current
        terms and period, exactly when there is at least one term. */
    method HandleCompare() returns (fetch: Option<Request>)
      ensures fetch.Some? <==> |terms| > 0
      ensures fetch.Some? ==> fetch.value == TrendsComparisonRequest(terms, days)
    {
      if |terms| > 0 {
        fetch := Some(TrendsComparisonRequest(terms, days));
      } else {
        fetch := None;
      }
    }
  }

  // ---- chartData ----

  /** A cell of a chart row: the formatted date or a series value. */
  datatype Cell = Label(text: string) | Value(n: int)

  type Row = map<string, Cell>

  /** The one key whose assignment on a plain object is not a write: it runs
      the inherited `__proto__` setter, which ignores a number, so no column
      appears under it. Every other inherited name is shadowed by the write. */
  const ProtoKey := "__proto__"

  /** `series.data[index]?.value || 0`: the value at index `k`, or 0 when the
      series is shorter. */
  function ValueAt(data: seq<DataPoint>, k: nat): int
  {
    if k < |data| then data[k].value else 0
  }

  /** The entry after the `forEach` over `series` has written each series'
      value at index `k` under its term, in order; a term `__proto__` writes
      nothing. */
  function Fill(entry: Row, series: seq<TrendsSeries>, k: nat): (r: Row)
    ensures entry.Keys <= r.Keys
    ensures series != [] && series[|series| - 1].term != ProtoKey ==>
              series[|series| - 1].term in r
              && r[series[|series| - 1].term] == Value(ValueAt(series[|series| - 1].data, k))
  {
    if series == [] then entry
    else
      var last := series[|series| - 1];
      var before := Fill(entry, series[..|series| - 1], k);
      if last.term == ProtoKey then before else before[last.term := Value(ValueAt(last.data, k))]
  }

  /** Row `k` of `chartData`: the date of point `k` of the first series,
      formatted, then every series' column. */
  function ChartRow(comparison: seq<TrendsSeries>, k: nat, dateLabel: string -> string): (r: Row)
    requires |comparison| > 0 && k < |comparison[0].data|
    ensures r.Keys == {"date"} + set s | s in comparison && s.term != ProtoKey :: s.term
  {
    var entry := map["date" := Label(dateLabel(comparison[0].data[k].date))];
    FillKeys(entry, comparison, k);
    Fill(entry, comparison, k)
  }

  /** `chartData`: undefined without any series, otherwise one row per point
      of the first series, each row filled in place by a loop over the
      series. */
  method ChartData(comparison: seq<TrendsSeries>, dateLabel: string -> string) returns (rows: Option<seq<Row>>)
    ensures rows.None? <==> comparison == []
    ensures rows.Some? ==> |rows.value| == |comparison[0].data|
    ensures rows.Some? ==> forall k :: 0 <= k < |rows.value| ==> rows.value[k] == ChartRow(comparison, k, dateLabel)
  {
    if comparison == [] {
      return None;
    }
    var points := comparison[0].data;
    var result: seq<Row> := [];
    var k := 0;
    while k < |points|
      invariant 0 <= k <= |points|
      invariant |result| == k
      invariant forall i :: 0 <= i < k ==> result[i] == ChartRow(comparison, i, dateLabel)
    {
      var entry: Row := map["date" := Label(dateLabel(points[k].date))];
      var j := 0;
      while j < |comparison|
        invariant 0 <= j <= |comparison|
        invariant entry == Fill(map["date" := Label(dateLabel(points[k].date))], comparison[..j], k)
      {
        assert comparison[..j + 1][..j] == comparison[..j];
        if comparison[j].term != ProtoKey {
          entry := entry[comparison[j].term := Value(ValueAt(comparison[j].data, k))];
        }
        j := j + 1;
      }
      assert comparison[..j] == comparison;
      result := result + [entry];
      k := k + 1;
    }
    rows := Some(result);
  }

  /** The index of the last series with term `t`, or -1 when there is none. */
  function LastWith(series: seq<TrendsSeries>, t: string): (i: int)
    ensures -1 <= i < |series|
    ensures i >= 0 ==> series[i].term == t
    ensures forall j :: i < j < |series| ==> series[j].term != t
  {
    if series == [] then -1
    else if series[|series| - 1].term == t then |series| - 1
    else LastWith(series[..|series| - 1], t)
  }

  /** What the loop leaves under each key: a term's column holds the value of
      the LAST series with that term, and a key no series uses, or the key
      `__proto__`, keeps what the entry had. */
  lemma {:induction false} FillAt(entry: Row, series: seq<TrendsSeries>, k: nat, t: string)
    ensures t != ProtoKey && LastWith(series, t) >= 0 ==>
              t in Fill(entry, series, k) && Fill(entry, series, k)[t] == Value(ValueAt(series[LastWith(series, t)].data, k))
    ensures t == ProtoKey || LastWith(series, t) < 0 ==>
              (t in Fill(entry, series, k) <==> t in entry) && (t in entry ==> Fill(entry, series, k)[t] == entry[t])
  {
    if series != [] && (series[|series| - 1].term != t || t == ProtoKey) {
      var init := series[..|series| - 1];
      FillAt(entry, init, k, t);
    }
  }

  /** The keys of a row: `date` and every term but `__proto__`. */
  lemma {:induction false} FillKeys(entry: Row, series: seq<TrendsSeries>, k: nat)
    ensures Fill(entry, series, k).Keys == entry.Keys + set s | s in series && s.term != ProtoKey :: s.term
  {
    if series != [] {
      var init := series[..|series| - 1];
      FillKeys(entry, init, k);
      assert series == init + [series[|series| - 1]];
    }
  }

  /** Row `k` in full: the date label survives unless some series is named
      "date", each term's column is the value at `k` of its last series, and
      no column is named `__proto__`. */
  lemma ChartRowColumns(comparison: seq<TrendsSeries>, k: nat, dateLabel: string -> string, t: string)
    requires |comparison| > 0 && k < |comparison[0].data|
    ensures t != ProtoKey && LastWith(comparison, t) >= 0 ==>
              t in ChartRow(comparison, k, dateLabel) && ChartRow(comparison, k, dateLabel)[t] == Value(ValueAt(comparison[LastWith(comparison, t)].data, k))
    ensures ProtoKey !in ChartRow(comparison, k, dateLabel)
    ensures LastWith(comparison, "date") < 0 ==>
              "date" in ChartRow(comparison, k, dateLabel) && ChartRow(comparison, k, dateLabel)["date"] == Label(dateLabel(comparison[0].data[k].date))
  {
    FillAt(map["date" := Label(dateLabel(comparison[0].data[k].date))], comparison, k, t);
    FillAt(map["date" := Label(dateLabel(comparison[0].data[k].date))], comparison, k, "date");
    FillAt(map["date" := Label(dateLabel(comparison[0].data[k].date))], comparison, k, ProtoKey);
  }
}
