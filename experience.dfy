/**
 * The experience section's list of responsibilities. Each entry names a
 * metric (such as "25%"); the entry's text is split at every occurrence of
 * the metric and rendered as the pieces with a highlighted copy of the
 * metric after every piece but the last.
 */
module Experience {
  import opened Text

  datatype Responsibility = Responsibility(text: string, metric: string)

  /** Each text is written as the words before its metric, the metric, and the words after it. */
  const Responsibilities: seq<Responsibility> := [
    Responsibility("Architected a scalable serverless web application using AWS S3, Lambda, DynamoDB, API Gateway, CloudFront, and AWS WAF, boosting deployment efficiency by " + "25%" + " at Gokboru Tech Pvt. Ltd.", "25%"),
    Responsibility("Engineered event-driven REST APIs using AWS Lambda and API Gateway, improving response latency by " + "20%" + " while enhancing system elasticity and fault tolerance", "20%"),
    Responsibility("Strengthened security and global content delivery with AWS WAF and CloudFront, reducing latency and boosting user engagement by " + "30%", "30%")
  ]

  /** One `<span>` of the rendered text: a plain piece, then the highlighted metric or nothing. */
  datatype Fragment = Fragment(part: string, highlighted: bool)

  /** `parts.map((part, i, arr) => part + (i < arr.length - 1 && metric))`. */
  function Fragments(parts: seq<string>): (fs: seq<Fragment>)
    ensures |fs| == |parts|
    ensures forall i :: 0 <= i < |fs| ==> fs[i].part == parts[i] && (fs[i].highlighted <==> i < |parts| - 1)
  {
    seq(|parts|, i requires 0 <= i < |parts| => Fragment(parts[i], i < |parts| - 1))
  }

  /** The fragments of one responsibility's text. */
  function Highlight(text: string, metric: string): seq<Fragment>
  {
    Fragments(Split(text, metric))
  }

  /** The characters a reader sees: every piece, followed by the metric where highlighted. */
  function VisibleText(fs: seq<Fragment>, metric: string): string
  {
    if |fs| == 0 then ""
    else fs[0].part + (if fs[0].highlighted then metric else "") + VisibleText(fs[1..], metric)
  }

  function HighlightCount(fs: seq<Fragment>): nat
  {
    if |fs| == 0 then 0 else (if fs[0].highlighted then 1 else 0) + HighlightCount(fs[1..])
  }

  lemma {:induction false} VisibleTextIsJoin(parts: seq<string>, metric: string)
    ensures VisibleText(Fragments(parts), metric) == Join(parts, metric)
    decreases |parts|
  {
    var fs := Fragments(parts);
    if |parts| >= 2 {
      assert fs[1..] == Fragments(parts[1..]);
      VisibleTextIsJoin(parts[1..], metric);
    } else if |parts| == 1 {
      assert fs[1..] == [];
    }
  }

  /** Highlighting loses and adds nothing: the visible text is the original text. */
  lemma VisibleTextIsOriginal(text: string, metric: string)
    ensures VisibleText(Highlight(text, metric), metric) == text
  {
    VisibleTextIsJoin(Split(text, metric), metric);
    SplitJoin(text, metric);
  }

  lemma {:induction false} HighlightCountOfFragments(parts: seq<string>)
    requires |parts| > 0
    ensures HighlightCount(Fragments(parts)) == |parts| - 1
    decreases |parts|
  {
    var fs := Fragments(parts);
    if |parts| >= 2 {
      assert fs[1..] == Fragments(parts[1..]);
      HighlightCountOfFragments(parts[1..]);
    } else {
      assert fs[1..] == [];
    }
  }

  /**
   * The metric is highlighted once per occurrence in the text (one fewer than
   * the pieces), no plain piece contains it, and it is highlighted at all
   * exactly when the text contains it.
   */
  lemma HighlightsMatchOccurrences(text: string, metric: string)
    requires metric != ""
    ensures HighlightCount(Highlight(text, metric)) == |Split(text, metric)| - 1
    ensures forall i :: 0 <= i < |Highlight(text, metric)| ==> !Includes(Highlight(text, metric)[i].part, metric)
    ensures HighlightCount(Highlight(text, metric)) > 0 <==> Includes(text, metric)
  {
    var parts := Split(text, metric);
    HighlightCountOfFragments(parts);
    SplitSingleIffAbsent(text, metric);
    forall i | 0 <= i < |parts| ensures !Includes(parts[i], metric) {
      SplitPiecesAvoidSeparator(text, metric, i);
    }
  }

  /** Every responsibility of the section contains its metric, so each has a highlight. */
  lemma EveryResponsibilityHighlightsItsMetric(k: nat)
    requires k < |Responsibilities|
    ensures HighlightCount(Highlight(Responsibilities[k].text, Responsibilities[k].metric)) > 0
  {
    var r := Responsibilities[k];
    var at: nat := if k == 0 then 154 else if k == 1 then 98 else 128;
    assert r.text[at..at + 3] == r.metric;
    assert OccursAt(r.text, r.metric, at);
    HighlightsMatchOccurrences(r.text, r.metric);
  }
}
