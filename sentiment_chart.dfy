/** The stand-alone sentiment distribution chart: loading and error states
    first, then a pie whose slice colours are looked up by the lower-cased
    slice name. */
module SentimentChart {
  import opened Common
  import Strings
  import opened Sentiment

  /** What the component renders. */
  datatype ChartView = LoadingView | ErrorView | PieView(slices: seq<Slice>)

  /** The early returns: loading wins over error, and the pie shows only
      when neither holds. */
  function Render(isLoading: bool, isError: bool, data: seq<DistributionItem>): (v: ChartView)
    ensures v == LoadingView <==> isLoading
    ensures v == ErrorView <==> !isLoading && isError
    ensures v.PieView? <==> !isLoading && !isError
    ensures v.PieView? ==> v.slices == Slices(data)
  {
    if isLoading then LoadingView
    else if isError then ErrorView
    else PieView(Slices(data))
  }

  /** The colours, keyed by the lower-case English sentiment. */
  const ChartColors: map<string, string> := map["positive" := "#10B981", "negative" := "#EF4444", "neutral" := "#6B7280"]

  /** The lower-case names a plain object such as `COLORS` inherits from
      `Object.prototype` (the others contain upper-case letters, which a
      lower-cased name never has). */
  const InheritedNames: set<string> := {"constructor", "__proto__"}

  /** What `fill` receives: a colour of the map, an inherited member (the
      `Object` function or the prototype itself), or undefined. */
  datatype SliceFill = Colour(hex: string) | Inherited(name: string) | NoFill

  /** `COLORS[entry.name.toLowerCase()]`. */
  function SliceColor(s: Slice): (c: SliceFill)
    ensures c.Colour? <==> Strings.ToLower(s.name) in ChartColors
    ensures c.Colour? ==> c.hex == ChartColors[Strings.ToLower(s.name)]
    ensures c.Inherited? <==> Strings.ToLower(s.name) in InheritedNames
    ensures c.Inherited? ==> c.name == Strings.ToLower(s.name)
  {
    var key := Strings.ToLower(s.name);
    if key in ChartColors then Colour(ChartColors[key])
    else if key in InheritedNames then Inherited(key)
    else NoFill
  }

  /** A slice gets a colour exactly when its sentiment, lower-cased, is one
      of `positive`, `negative`, `neutral`; so the three lower-case
      sentiments of the backend always do. */
  lemma SliceColorResolves(data: seq<DistributionItem>, i: int)
    requires 0 <= i < |data|
    ensures SliceColor(Slices(data)[i]).Colour? <==> Strings.ToLower(data[i].sentiment) in ChartColors
    ensures data[i].sentiment in ChartColors ==> SliceColor(Slices(data)[i]) == Colour(ChartColors[data[i].sentiment])
  {
    Strings.LowerOfCapitalized(data[i].sentiment);
    var s := data[i].sentiment;
    if s in ChartColors {
      assert s == "positive" || s == "negative" || s == "neutral";
      Strings.ToLowerOfLower(s);
    }
  }

  /** A sentiment that names an inherited member gets that member as its
      fill rather than undefined: "constructor" yields the `Object`
      function. */
  lemma InheritedSentimentFill(data: seq<DistributionItem>, i: int)
    requires 0 <= i < |data|
    requires data[i].sentiment == "constructor"
    ensures SliceColor(Slices(data)[i]) == Inherited("constructor")
  {
    var s := data[i].sentiment;
    Strings.LowerOfCapitalized(s);
    Strings.ToLowerOfLower(s);
  }
}
