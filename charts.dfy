/** The data behind the two report charts of generateChartURL
    (index.js:87-115): a bar chart of hours played per day and a line chart of
    cumulative hours. The chart service's URL text is not modelled. */
module Charts {

  import opened History

  /** Consecutive differences: element `i` is `xs[i + 1] - xs[i]`. */
  function Deltas(xs: seq<real>): (d: seq<real>)
    ensures |d| == if |xs| == 0 then 0 else |xs| - 1
    ensures forall i {:trigger d[i]} :: 0 <= i < |d| ==> d[i] == xs[i + 1] - xs[i]
  {
    if |xs| <= 1 then [] else [xs[1] - xs[0]] + Deltas(xs[1..])
  }

  /** `Deltas` is the only series with its length and elements. */
  lemma DeltasUnique(xs: seq<real>, d: seq<real>)
    requires |d| == if |xs| == 0 then 0 else |xs| - 1
    requires forall i {:trigger d[i]} :: 0 <= i < |d| ==> d[i] == xs[i + 1] - xs[i]
    ensures d == Deltas(xs)
  {
    var deltas := Deltas(xs);
    forall i | 0 <= i < |d|
      ensures d[i] == deltas[i]
    {
    }
  }

  /** `labels.slice(1)`: every label but the first, and none for an empty list. */
  function DropFirst<T>(s: seq<T>): (r: seq<T>)
    ensures |r| == if |s| == 0 then 0 else |s| - 1
    ensures forall i :: 0 <= i < |r| ==> r[i] == s[i + 1]
  {
    if |s| == 0 then [] else s[1..]
  }

  function Sum(xs: seq<real>): real
  {
    if xs == [] then 0.0 else xs[0] + Sum(xs[1..])
  }

  /** The daily bars add up to the growth of the cumulative line across the
      window: from the first snapshot to the last. */
  lemma {:induction false} SumOfDeltas(xs: seq<real>)
    requires |xs| >= 1
    ensures Sum(Deltas(xs)) == xs[|xs| - 1] - xs[0]
    decreases |xs|
  {
    if |xs| == 1 {
      assert Deltas(xs) == [];
    } else {
      var d := Deltas(xs);
      assert d == [xs[1] - xs[0]] + Deltas(xs[1..]);
      assert d[0] == xs[1] - xs[0] && d[1..] == Deltas(xs[1..]);
      SumOfDeltas(xs[1..]);
    }
  }

  /** A series whose values never decrease gives no negative daily bar. */
  lemma NondecreasingHasNonnegativeDeltas(xs: seq<real>)
    requires forall i, j :: 0 <= i < j < |xs| ==> xs[i] <= xs[j]
    ensures forall i :: 0 <= i < |Deltas(xs)| ==> Deltas(xs)[i] >= 0.0
  {
    var d := Deltas(xs);
    forall i | 0 <= i < |d|
      ensures d[i] >= 0.0
    {
      assert d[i] == xs[i + 1] - xs[i];
    }
  }

  datatype Shape = Bar | Line

  /** A declarative chart: its shape, the legend of its one dataset, the
      labels along the x axis and the values plotted over them. */
  datatype Series = Series(shape: Shape, legend: string, labels: seq<string>, data: seq<real>)

  const DailyLegend: string := "Gunluk Rust Saat"
  const TotalLegend: string := "Toplam Rust Saat"
}
