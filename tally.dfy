/**
 * The summary of an analysed table: how many rows carry each label, read off
 * the result column by counting its values and defaulting absent ones to 0.
 */
module Tally {

  import opened Wrappers
  import opened Sentiment
  import opened Frame

  /** How often x occurs in s, counted element by element. */
  function Occurrences<T(==)>(s: seq<T>, x: T): nat
  {
    if s == [] then 0 else (if s[0] == x then 1 else 0) + Occurrences(s[1..], x)
  }

  /**
   * Value counting over a column: every distinct cell value with the number
   * of cells holding it. A value that does not occur has no entry.
   */
  function ValueCounts(column: seq<string>): (counts: map<string, nat>)
    ensures forall v :: v in counts <==> v in column
    ensures forall v :: v in counts ==> counts[v] > 0
  {
    map v | v in column :: multiset(column)[v]
  }

  /** Looks a value up in the counts, with a default for a value that has no entry. */
  function Get(counts: map<string, nat>, key: string, default: nat): (n: nat)
    ensures key in counts ==> n == counts[key]
    ensures key !in counts ==> n == default
  {
    if key in counts then counts[key] else default
  }

  /** The three figures reported to the user, one per label. */
  datatype Metrics = Metrics(positivos: nat, neutrales: nat, negativos: nat) {

    /** The figure reported for label l. */
    function Of(l: Label): nat
    {
      match l
      case Positivo => positivos
      case Neutral => neutrales
      case Negativo => negativos
    }
  }

  /** Reads the three figures off the counts, 0 for a label that has no entry. */
  function KeyMetrics(counts: map<string, nat>): (m: Metrics)
    ensures forall l :: m.Of(l) == Get(counts, l.Name(), 0)
  {
    Metrics(Get(counts, "Positivo", 0), Get(counts, "Neutral", 0), Get(counts, "Negativo", 0))
  }

  /** Multiset counting agrees with counting element by element. */
  lemma {:induction false} MultisetCountsOccurrences<T>(s: seq<T>, x: T)
    ensures multiset(s)[x] == Occurrences(s, x)
  {
    if s != [] {
      assert s == [s[0]] + s[1..];
      assert multiset(s) == multiset([s[0]]) + multiset(s[1..]);
      MultisetCountsOccurrences(s[1..], x);
    }
  }

  /** The count of a value, defaulting to 0, is exactly how often it occurs. */
  lemma ValueCountsGet(column: seq<string>, v: string)
    ensures Get(ValueCounts(column), v, 0) == Occurrences(column, v)
  {
    MultisetCountsOccurrences(column, v);
  }

  /** Counting the texts of a label column counts the rows with that label. */
  lemma {:induction false} NamesOccurrences(labels: seq<Label>, l: Label)
    ensures Occurrences(Names(labels), l.Name()) == Occurrences(labels, l)
  {
    if labels != [] {
      var cells := Names(labels);
      assert cells[0] == labels[0].Name();
      assert cells[1..] == Names(labels[1..]);
      NameInjective(labels[0], l);
      NamesOccurrences(labels[1..], l);
    }
  }

  /** Each reported figure is the number of rows carrying that label. */
  lemma TallyCountsRows(labels: seq<Label>, l: Label)
    ensures KeyMetrics(ValueCounts(Names(labels))).Of(l) == Occurrences(labels, l)
  {
    ValueCountsGet(Names(labels), l.Name());
    NamesOccurrences(labels, l);
  }

  /** A label that no row carries has no entry in the counts and is reported as 0. */
  lemma AbsentLabelReportsZero(labels: seq<Label>, l: Label)
    ensures l.Name() !in ValueCounts(Names(labels)) <==> Occurrences(labels, l) == 0
    ensures Occurrences(labels, l) == 0 ==> KeyMetrics(ValueCounts(Names(labels))).Of(l) == 0
  {
    TallyCountsRows(labels, l);
    ValueCountsGet(Names(labels), l.Name());
  }

  /** Every row carries exactly one of the three labels. */
  lemma {:induction false} LabelCountSum(labels: seq<Label>)
    ensures Occurrences(labels, Positivo) + Occurrences(labels, Neutral) + Occurrences(labels, Negativo)
            == |labels|
  {
    if labels != [] {
      var rest := labels[1..];
      LabelCountSum(rest);
      assert Occurrences(labels, Positivo) == (if labels[0] == Positivo then 1 else 0) + Occurrences(rest, Positivo);
      assert Occurrences(labels, Neutral) == (if labels[0] == Neutral then 1 else 0) + Occurrences(rest, Neutral);
      assert Occurrences(labels, Negativo) == (if labels[0] == Negativo then 1 else 0) + Occurrences(rest, Negativo);
    }
  }

  /** The three reported figures add up to the number of rows. */
  lemma TallySum(labels: seq<Label>)
    ensures KeyMetrics(ValueCounts(Names(labels))).positivos
            + KeyMetrics(ValueCounts(Names(labels))).neutrales
            + KeyMetrics(ValueCounts(Names(labels))).negativos == |labels|
  {
    TallyCountsRows(labels, Positivo);
    TallyCountsRows(labels, Neutral);
    TallyCountsRows(labels, Negativo);
    LabelCountSum(labels);
  }

  /**
   * The whole analysis of a table: label every comment, count the result
   * column, report one figure per label. Fails when there is no comment column.
   */
  function Report(f: Frame, scorer: Scorer): (r: Result<Metrics, FrameError>)
    ensures r.Failure? <==> CommentColumn !in f.columns
    ensures r.Failure? ==> r.error == KeyError(CommentColumn)
    ensures r.Success? ==>
      r.value.positivos + r.value.neutrales + r.value.negativos == |f.columns[CommentColumn]|
    ensures r.Success? ==>
      forall l :: r.value.Of(l) == Occurrences(LabelColumn(scorer, f.columns[CommentColumn]), l)
  {
    match AnalyzeFrame(f, scorer)
    case Failure(e) => Failure(e)
    case Success(g) =>
      var labels := LabelColumn(scorer, f.columns[CommentColumn]);
      assert g.columns[ResultColumn] == Names(labels);
      TallySum(labels);
      TallyCountsRows(labels, Positivo);
      TallyCountsRows(labels, Neutral);
      TallyCountsRows(labels, Negativo);
      Success(KeyMetrics(ValueCounts(g.columns[ResultColumn])))
  }

  /** The comments of the three-row example table. */
  const ExampleComments: seq<string> :=
    ["Excelente servicio", "Pésimo trato, nunca regreso", "Normal, sin comentarios"]

  /** The three-row example table, holding only the comment column. */
  const ExampleFrame: Frame := Frame(map[CommentColumn := ExampleComments])

  /** A scorer that gives the example comments 0.62, -0.71 and 0.0. */
  predicate ScoresExample(scorer: Scorer)
  {
    && scorer(ExampleComments[0]) == 0.62
    && scorer(ExampleComments[1]) == -0.71
    && scorer(ExampleComments[2]) == 0.0
  }

  /** The example comments are labelled positive, negative, neutral. */
  lemma ExampleLabels(scorer: Scorer)
    requires ScoresExample(scorer)
    ensures LabelColumn(scorer, ExampleComments) == [Positivo, Negativo, Neutral]
  {
  }

  /** The example label column holds each label once. */
  lemma {:induction false} ExampleCounts(l: Label)
    ensures Occurrences([Positivo, Negativo, Neutral], l) == 1
  {
  }

  /** The three-row example table yields one row of each label. */
  lemma ThreeCommentExample(scorer: Scorer)
    requires ScoresExample(scorer)
    ensures AnalyzeFrame(ExampleFrame, scorer)
            == Success(Frame(map[CommentColumn := ExampleComments,
                                 ResultColumn := ["Positivo", "Negativo", "Neutral"]]))
    ensures Report(ExampleFrame, scorer) == Success(Metrics(1, 1, 1))
  {
    var f := ExampleFrame;
    ExampleLabels(scorer);
    var labels := LabelColumn(scorer, ExampleComments);
    assert Names(labels) == ["Positivo", "Negativo", "Neutral"];
    var r := Report(f, scorer);
    assert r.Success?;
    ExampleCounts(Positivo);
    ExampleCounts(Neutral);
    ExampleCounts(Negativo);
    assert r.value.Of(Positivo) == 1 && r.value.Of(Neutral) == 1 && r.value.Of(Negativo) == 1;
  }
}
