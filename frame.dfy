/**
 * The spreadsheet as a table of text columns, and the step that adds the
 * column of sentiment labels to it.
 */
module Frame {

  import opened Wrappers
  import opened Sentiment

  /** The column that holds the comments. */
  const CommentColumn: string := "Comentario"

  /** The column the analysis adds. */
  const ResultColumn: string := "Sentimiento Analizado"

  /** A table: each column name maps to its cells, top row first. */
  datatype Frame = Frame(columns: map<string, seq<string>>)

  /** Every column of a table has the same number of rows. */
  predicate Rectangular(f: Frame)
  {
    forall c, d :: c in f.columns && d in f.columns ==> |f.columns[c]| == |f.columns[d]|
  }

  /** Selecting a column that the table does not have. */
  datatype FrameError = KeyError(column: string)

  /** The label of every comment, row by row. */
  function LabelColumn(scorer: Scorer, comments: seq<string>): (labels: seq<Label>)
    ensures |labels| == |comments|
    ensures forall i :: 0 <= i < |comments| ==> labels[i] == AnalyzeSentiment(scorer, comments[i])
  {
    if comments == [] then []
    else [AnalyzeSentiment(scorer, comments[0])] + LabelColumn(scorer, comments[1..])
  }

  /** The texts of a column of labels, row by row. */
  function Names(labels: seq<Label>): (cells: seq<string>)
    ensures |cells| == |labels|
    ensures forall i :: 0 <= i < |labels| ==> cells[i] == labels[i].Name()
  {
    if labels == [] then [] else [labels[0].Name()] + Names(labels[1..])
  }

  /** Applies the scorer and the policy to each comment, filling a new column in row order. */
  method LabelRows(scorer: Scorer, comments: seq<string>) returns (labels: array<Label>)
    ensures fresh(labels)
    ensures labels.Length == |comments|
    ensures labels[..] == LabelColumn(scorer, comments)
  {
    labels := new Label[|comments|];
    var i := 0;
    while i < |comments|
      invariant 0 <= i <= |comments|
      invariant forall k :: 0 <= k < i ==> labels[k] == AnalyzeSentiment(scorer, comments[k])
    {
      labels[i] := AnalyzeSentiment(scorer, comments[i]);
      i := i + 1;
    }
  }

  /**
   * Selects the comment column and stores the label of every comment in the
   * result column, replacing that column if the table already has one. A table
   * without a comment column fails before any label is assigned.
   */
  function AnalyzeFrame(f: Frame, scorer: Scorer): (r: Result<Frame, FrameError>)
    ensures r.Failure? <==> CommentColumn !in f.columns
    ensures r.Failure? ==> r.error == KeyError(CommentColumn)
    ensures r.Success? ==> r.value.columns.Keys == f.columns.Keys + {ResultColumn}
    ensures r.Success? ==>
      forall c :: c in f.columns && c != ResultColumn ==> r.value.columns[c] == f.columns[c]
    ensures r.Success? ==> |r.value.columns[ResultColumn]| == |f.columns[CommentColumn]|
    ensures r.Success? ==>
      forall i :: 0 <= i < |f.columns[CommentColumn]| ==>
        r.value.columns[ResultColumn][i] == AnalyzeSentiment(scorer, f.columns[CommentColumn][i]).Name()
  {
    if CommentColumn !in f.columns then Failure(KeyError(CommentColumn))
    else
      var labels := LabelColumn(scorer, f.columns[CommentColumn]);
      Success(Frame(f.columns[ResultColumn := Names(labels)]))
  }

  /** Running the analysis again on its own output changes nothing. */
  lemma AnalyzeFrameIdempotent(f: Frame, scorer: Scorer)
    requires AnalyzeFrame(f, scorer).Success?
    ensures AnalyzeFrame(AnalyzeFrame(f, scorer).value, scorer) == AnalyzeFrame(f, scorer)
  {
    var g := AnalyzeFrame(f, scorer).value;
    assert g.columns[CommentColumn] == f.columns[CommentColumn];
    assert g.columns[ResultColumn := g.columns[ResultColumn]] == g.columns;
  }

  /** The added column has as many rows as the table, so the table stays rectangular. */
  lemma AnalyzeFrameRectangular(f: Frame, scorer: Scorer)
    requires Rectangular(f)
    requires AnalyzeFrame(f, scorer).Success?
    ensures Rectangular(AnalyzeFrame(f, scorer).value)
  {
    var g := AnalyzeFrame(f, scorer).value;
    forall c | c in g.columns
      ensures |g.columns[c]| == |f.columns[CommentColumn]|
    {
      if c != ResultColumn {
        assert c in f.columns;
      }
    }
  }
}
