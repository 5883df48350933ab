/** The overview tab's correlation chart: each point of the mentions series
    is joined with the trends point of the same date. */
module VisaoGeral {
  import opened AnalyticsService

  /** A row of the correlation chart: the formatted date, `Menções` and
      `Interesse de Busca`. */
  datatype CorrelationRow = CorrelationRow(date: string, mentions: int, searchInterest: int)

  /** `trends.find(t => t.date === date)`: the index of the first point with
      that date, or -1. */
  function FindDate(trends: seq<DataPoint>, date: string): (i: int)
    ensures -1 <= i < |trends|
    ensures i >= 0 ==> trends[i].date == date
    ensures forall j :: 0 <= j < |trends| && (i < 0 || j < i) ==> trends[j].date != date
  {
    if trends == [] then -1
    else if trends[0].date == date then 0
    else
      var i := FindDate(trends[1..], date);
      if i < 0 then -1 else i + 1
  }

  /** `trendPoint?.value || 0`. */
  function SearchInterest(trends: seq<DataPoint>, date: string): int
  {
    var i := FindDate(trends, date);
    if i < 0 then 0 else trends[i].value
  }

  /** `chartData` of the correlation chart: one row per mention, in order. */
  function CorrelationRows(mentions: seq<DataPoint>, trends: seq<DataPoint>, dateLabel: string -> string): (rows: seq<CorrelationRow>)
    ensures |rows| == |mentions|
    ensures forall i :: 0 <= i < |mentions| ==>
              rows[i].mentions == mentions[i].value && rows[i].date == dateLabel(mentions[i].date)
  {
    seq(|mentions|, i requires 0 <= i < |mentions| =>
      CorrelationRow(dateLabel(mentions[i].date), mentions[i].value, SearchInterest(trends, mentions[i].date)))
  }

  /** The search interest of a row is the value of the first trends point of
      the same date, and 0 when no trends point has that date. */
  lemma SearchInterestOfRow(mentions: seq<DataPoint>, trends: seq<DataPoint>, dateLabel: string -> string, i: int)
    requires 0 <= i < |mentions|
    ensures (exists j :: 0 <= j < |trends| && trends[j].date == mentions[i].date) ==>
              exists j :: 0 <= j < |trends| && trends[j].date == mentions[i].date
                && (forall j' :: 0 <= j' < j ==> trends[j'].date != mentions[i].date)
                && CorrelationRows(mentions, trends, dateLabel)[i].searchInterest == trends[j].value
    ensures (forall j :: 0 <= j < |trends| ==> trends[j].date != mentions[i].date) ==>
              CorrelationRows(mentions, trends, dateLabel)[i].searchInterest == 0
  {
    var j := FindDate(trends, mentions[i].date);
    if j >= 0 {
      assert forall j' :: 0 <= j' < j ==> trends[j'].date != mentions[i].date;
    }
  }

  /** The rows of a concatenation of mention series are the concatenation of
      their rows: the join keeps the order of the mentions. */
  lemma CorrelationRowsAppend(m1: seq<DataPoint>, m2: seq<DataPoint>, trends: seq<DataPoint>, dateLabel: string -> string)
    ensures CorrelationRows(m1 + m2, trends, dateLabel) == CorrelationRows(m1, trends, dateLabel) + CorrelationRows(m2, trends, dateLabel)
  {
  }

  /** Trends points of dates no mention has do not show in the output:
      removing one leaves every row as it was. */
  lemma {:induction false} FindIgnoresOtherDates(t1: seq<DataPoint>, p: DataPoint, t2: seq<DataPoint>, date: string)
    requires p.date != date
    ensures SearchInterest(t1 + [p] + t2, date) == SearchInterest(t1 + t2, date)
  {
    if t1 != [] {
      assert (t1 + [p] + t2)[1..] == t1[1..] + [p] + t2;
      assert (t1 + t2)[1..] == t1[1..] + t2;
      FindIgnoresOtherDates(t1[1..], p, t2, date);
    } else {
      assert (t1 + [p] + t2)[1..] == t2;
      assert t1 + t2 == t2;
    }
  }

  lemma UnmatchedTrendPointIgnored(mentions: seq<DataPoint>, t1: seq<DataPoint>, p: DataPoint, t2: seq<DataPoint>, dateLabel: string -> string)
    requires forall i :: 0 <= i < |mentions| ==> mentions[i].date != p.date
    ensures CorrelationRows(mentions, t1 + [p] + t2, dateLabel) == CorrelationRows(mentions, t1 + t2, dateLabel)
  {
    forall i | 0 <= i < |mentions|
      ensures CorrelationRows(mentions, t1 + [p] + t2, dateLabel)[i] == CorrelationRows(mentions, t1 + t2, dateLabel)[i]
    {
      FindIgnoresOtherDates(t1, p, t2, mentions[i].date);
    }
  }
}
