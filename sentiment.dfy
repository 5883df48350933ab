/** The sentiment-analysis tab: the distribution donut, whose slices are
    named by capitalising each sentiment, and the stacked evolution chart. */
module Sentiment {
  import opened Common
  import Strings

  /** One item of the sentiment distribution: a sentiment and its count. */
  datatype DistributionItem = DistributionItem(sentiment: string, count: int)

  /** One slice of a pie chart. */
  datatype Slice = Slice(name: string, value: int)

  /** The `chartData` map shared by both distribution charts: each item
      becomes a slice named by the capitalised sentiment, valued by its
      count, in the same order. */
  function Slices(items: seq<DistributionItem>): (r: seq<Slice>)
    ensures |r| == |items|
    ensures forall i :: 0 <= i < |items| ==>
              r[i].name == Strings.Capitalize(items[i].sentiment) && r[i].value == items[i].count
  {
    seq(|items|, i requires 0 <= i < |items| => Slice(Strings.Capitalize(items[i].sentiment), items[i].count))
  }

  function TotalCount(items: seq<DistributionItem>): int
  {
    if items == [] then 0 else TotalCount(items[..|items| - 1]) + items[|items| - 1].count
  }

  function TotalValue(slices: seq<Slice>): int
  {
    if slices == [] then 0 else TotalValue(slices[..|slices| - 1]) + slices[|slices| - 1].value
  }

  /** The donut's total is the number of mentions counted: the mapping loses
      and adds nothing. */
  lemma {:induction false} SlicesKeepTotal(items: seq<DistributionItem>)
    ensures TotalValue(Slices(items)) == TotalCount(items)
  {
    if items != [] {
      var init := items[..|items| - 1];
      SlicesKeepTotal(init);
      assert Slices(items)[..|items| - 1] == Slices(init);
    }
  }

  /** The slice colours of the tab, keyed by the capitalised Portuguese name. */
  const Colors: map<string, string> := map["Positivo" := "#22c55e", "Negativo" := "#ef4444", "Neutro" := "#a1a1aa"]

  /** The three sentiments the backend sends are named so that their colours
      resolve. */
  lemma SentimentNamesHaveColors(s: string)
    requires s == "positivo" || s == "negativo" || s == "neutro"
    ensures Strings.Capitalize(s) in Colors
  {
    assert Strings.UpperChar('p') == 'P' && Strings.UpperChar('n') == 'N';
    if s == "positivo" {
      assert Strings.Capitalize(s) == "Positivo";
    } else if s == "negativo" {
      assert Strings.Capitalize(s) == "Negativo";
    } else {
      assert Strings.Capitalize(s) == "Neutro";
    }
  }

  /** One day of the sentiment evolution, as the backend sends it. */
  datatype OverTimeItem = OverTimeItem(date: string, positive: int, negative: int, neutral: int)

  /** One row of the stacked area chart. */
  datatype EvolutionRow = EvolutionRow(date: string, positivo: int, negativo: int, neutro: int)

  /** The evolution chart's `chartData`: one row per day, in order, with the
      date formatted and each area taken from the matching English count. */
  function EvolutionRows(items: seq<OverTimeItem>, dateLabel: string -> string): (rows: seq<EvolutionRow>)
    ensures |rows| == |items|
    ensures forall i :: 0 <= i < |items| ==>
              rows[i].date == dateLabel(items[i].date)
              && rows[i].positivo == items[i].positive
              && rows[i].negativo == items[i].negative
              && rows[i].neutro == items[i].neutral
  {
    seq(|items|, i requires 0 <= i < |items| =>
      EvolutionRow(dateLabel(items[i].date), items[i].positive, items[i].negative, items[i].neutral))
  }
}
