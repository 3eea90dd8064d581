/**
 * The sentiment label policy of the comment analyser: a compound score is
 * mapped onto one of three labels by two fixed thresholds.
 */
module Sentiment {

  /** The three labels the application writes into its result column. */
  datatype Label = Positivo | Negativo | Neutral {

    /** The text that the result column holds for this label. */
    function Name(): (s: string)
      ensures s == "Positivo" <==> this == Positivo
      ensures s == "Negativo" <==> this == Negativo
      ensures s == "Neutral" <==> this == Neutral
    {
      match this
      case Positivo => "Positivo"
      case Negativo => "Negativo"
      case Neutral => "Neutral"
    }
  }

  /** A compound score as the lexicon scorer reports it: a real in [-1, 1]. */
  type Compound = r: real | -1.0 <= r <= 1.0 witness 0.0

  /**
   * The lexicon scorer, reduced to its compound score. It is a parameter of
   * the model: its lexicon and rules are not modelled.
   */
  type Scorer = string -> Compound

  /** Scores at or above this are positive. */
  const PositiveThreshold: real := 0.05

  /** Scores at or below this are negative. */
  const NegativeThreshold: real := -0.05

  /** The threshold policy: positive test first, then negative, else neutral. */
  function Classify(compound: real): (l: Label)
    ensures l == Positivo <==> compound >= PositiveThreshold
    ensures l == Negativo <==> compound <= NegativeThreshold
    ensures l == Neutral <==> NegativeThreshold < compound < PositiveThreshold
  {
    if compound >= PositiveThreshold then Positivo
    else if compound <= NegativeThreshold then Negativo
    else Neutral
  }

  /** Scores one comment and labels it by the policy. */
  function AnalyzeSentiment(scorer: Scorer, text: string): (l: Label)
    ensures l == Positivo <==> scorer(text) >= PositiveThreshold
    ensures l == Negativo <==> scorer(text) <= NegativeThreshold
    ensures l == Neutral <==> NegativeThreshold < scorer(text) < PositiveThreshold
  {
    Classify(scorer(text))
  }

  /** The same policy with its two tests taken in the other order. */
  function ClassifyNegativeFirst(compound: real): Label
  {
    if compound <= NegativeThreshold then Negativo
    else if compound >= PositiveThreshold then Positivo
    else Neutral
  }

  /** The two threshold tests never both hold, so their order is irrelevant. */
  lemma TestOrderIrrelevant(compound: real)
    ensures Classify(compound) == ClassifyNegativeFirst(compound)
  {
  }

  /** Negativo below Neutral below Positivo. */
  function Rank(l: Label): nat
  {
    match l
    case Negativo => 0
    case Neutral => 1
    case Positivo => 2
  }

  /** A higher score never gets a lower label. */
  lemma ClassifyMonotone(s: real, t: real)
    requires s <= t
    ensures Rank(Classify(s)) <= Rank(Classify(t))
  {
  }

  /** Both thresholds are inclusive; the open band between them is neutral. */
  lemma ClassifyBoundaries()
    ensures Classify(0.05) == Positivo
    ensures Classify(-0.05) == Negativo
    ensures Classify(0.0) == Neutral
    ensures Classify(0.049999) == Neutral
    ensures Classify(-0.050001) == Negativo
  {
  }

  /** Distinct labels are written as distinct texts. */
  lemma NameInjective(a: Label, b: Label)
    ensures a.Name() == b.Name() <==> a == b
  {
  }
}
