/**
 * The table rank 0 prints: a header, then one row per size point. Values are
 * modelled as integers, without the field widths of the stream output.
 */
module Reporting {
  import opened Config
  import opened Events

  /** The labels printHeader writes, in column order. */
  function HeaderLabels(): (r: seq<string>)
    ensures |r| == 6
    ensures forall i, j :: 0 <= i < j < |r| ==> r[i] != r[j]
  {
    ["elements", "min (us)", "p50 (us)", "p99 (us)", "max (us)", "samples"]
  }

  /**
   * The values printDistribution writes for a size point, in column order:
   * percentiles in microseconds (nanoseconds divided by 1000), then the sample count.
   */
  function ReportRow(elements: int, samples: seq<nat>, percentile: (seq<nat>, real) -> nat): (r: seq<int>)
    ensures |r| == |HeaderLabels()|
    ensures r[0] == elements && r[|r| - 1] == |samples|
    ensures forall k :: 1 <= k < |r| - 1 ==> 0 <= r[k]
  {
    [ elements,
      percentile(samples, 0.00) / 1000,
      percentile(samples, 0.50) / 1000,
      percentile(samples, 0.90) / 1000,
      percentile(samples, 0.99) / 1000,
      |samples| ]
  }

  /** The value printed under the first column called `title`, if any. */
  function ValueUnder(title: string, labels: seq<string>, row: seq<int>): Option<int>
  {
    if labels == [] || row == [] then None
    else if labels[0] == title then Some(row[0])
    else ValueUnder(title, labels[1..], row[1..])
  }

  /**
   * What a reader of the table finds under each label. The column labelled
   * "p99 (us)" holds the 90th percentile and the one labelled "max (us)" holds
   * the 99th; no column holds the maximum.
   */
  lemma {:induction false} ColumnContents(elements: int, samples: seq<nat>, percentile: (seq<nat>, real) -> nat)
    ensures |ReportRow(elements, samples, percentile)| == |HeaderLabels()|
    ensures ValueUnder("elements", HeaderLabels(), ReportRow(elements, samples, percentile)) == Some(elements)
    ensures ValueUnder("min (us)", HeaderLabels(), ReportRow(elements, samples, percentile))
         == Some(percentile(samples, 0.00) / 1000)
    ensures ValueUnder("p50 (us)", HeaderLabels(), ReportRow(elements, samples, percentile))
         == Some(percentile(samples, 0.50) / 1000)
    ensures ValueUnder("p99 (us)", HeaderLabels(), ReportRow(elements, samples, percentile))
         == Some(percentile(samples, 0.90) / 1000)
    ensures ValueUnder("max (us)", HeaderLabels(), ReportRow(elements, samples, percentile))
         == Some(percentile(samples, 0.99) / 1000)
    ensures ValueUnder("samples", HeaderLabels(), ReportRow(elements, samples, percentile)) == Some(|samples|)
  {
    var h, r := HeaderLabels(), ReportRow(elements, samples, percentile);
    ValueUnderAt("elements", h, r, 0);
    ValueUnderAt("min (us)", h, r, 1);
    ValueUnderAt("p50 (us)", h, r, 2);
    ValueUnderAt("p99 (us)", h, r, 3);
    ValueUnderAt("max (us)", h, r, 4);
    ValueUnderAt("samples", h, r, 5);
  }

  /** The value under a title is the one in the column where the title first appears. */
  lemma {:induction false} ValueUnderAt(title: string, labels: seq<string>, row: seq<int>, k: nat)
    requires k < |labels| <= |row|
    requires labels[k] == title
    requires forall j :: 0 <= j < k ==> labels[j] != title
    ensures ValueUnder(title, labels, row) == Some(row[k])
  {
    if 0 < k {
      ValueUnderAt(title, labels[1..], row[1..], k - 1);
    }
  }

  /** printHeader: the header, on rank 0 only. */
  function HeaderEvents(o: Options): seq<Event>
  {
    if o.contextRank == 0 then [Print(Header(HeaderLabels()))] else []
  }

  /** printDistribution: one row, on rank 0 only. */
  function ReportEvents(o: Options, elements: int, samples: seq<nat>, percentile: (seq<nat>, real) -> nat): seq<Event>
  {
    if o.contextRank == 0 then [Print(Row(ReportRow(elements, samples, percentile)))] else []
  }
}
