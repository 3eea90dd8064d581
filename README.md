# Sentiment labelling of pension-fund comments

This project models the decision logic of a small comment-analysis application. The application reads a spreadsheet of comments about a pension-fund administrator. It scores each comment with a lexicon-based sentiment scorer and labels it `Positivo`, `Negativo` or `Neutral`. It then reports how many comments carry each label.

The model has four modules:

- `Sentiment` (`sentiment.dfy`) defines the three labels and the threshold policy. A compound score of at least 0.05 is `Positivo`. A score of at most -0.05 is `Negativo`. Every other score is `Neutral`. The scorer is a parameter of type `string -> Compound`, where `Compound` is a real in [-1, 1].
- `Frame` (`frame.dfy`) models the table as a map from column names to cell texts, top row first. The per-row `apply` is modelled twice: `LabelColumn` as a sequence map, and `LabelRows` as a loop filling an array. Only `AnalyzeFrame` selects the `"Comentario"` column and stores the label texts in `"Sentimiento Analizado"`. The datatype itself admits columns of different lengths; the predicate `Rectangular` states the shape of a real dataframe, and the analysis preserves it.
- `Tally` (`tally.dfy`) models value counting over the result column. Only values that occur get an entry. A lookup with default 0 then reads off the three reported figures.
- `Wrappers` (`wrappers.dfy`) holds the `Result` type. It stands for the exception the application raises when the comment column is missing.

The source raises a pandas `KeyError` when the comment column is missing; the model returns `Failure(KeyError("Comentario"))`.

## Model

| member | source | states |
|---|---|---|
| `Sentiment.Classify` | app1.py:68-73 | the label is Positivo iff the score is >= 0.05, Negativo iff it is <= -0.05, Neutral iff it lies strictly between; so exactly one label is returned for every score |
| `Sentiment.AnalyzeSentiment` | app1.py:66-73 | the label of a comment is decided by the scorer's compound score for that text, with the same three if-and-only-if conditions |
| `Sentiment.TestOrderIrrelevant` | app1.py:68-71 | taking the negative test before the positive one gives the same label for every score, because the two tests never overlap |
| `Sentiment.ClassifyMonotone` | app1.py:68-73 | a higher score never gets a lower label (Negativo < Neutral < Positivo) |
| `Sentiment.ClassifyBoundaries` | app1.py:68-73 | 0.05 is Positivo, -0.05 is Negativo, 0.0 and 0.049999 are Neutral, -0.050001 is Negativo |
| `Sentiment.Label.Name` | app1.py:69-73 | each label is written as its own text: "Positivo", "Negativo" or "Neutral", and each text belongs to exactly one label |
| `Sentiment.NameInjective` | app1.py:69-73 | the three label texts are pairwise distinct, so a label can be recovered from its text |
| `Frame.LabelColumn` | app1.py:76 | the label column has one entry per comment, and entry i is the label of comment i; no row is dropped or reordered |
| `Frame.Names` | app1.py:76 | the stored column holds, row by row, the text of each label |
| `Frame.LabelRows` | app1.py:76 | filling a new array row by row yields exactly the label column, of the same length as the comments |
| `Frame.AnalyzeFrame` | app1.py:76 | fails with KeyError("Comentario") iff the table has no comment column, and then no label is produced; otherwise the result column is added or replaced, every other column is unchanged, and cell i holds the label text of comment i |
| `Frame.AnalyzeFrameRectangular` | app1.py:76 | the added column has one cell per row, so a table whose columns all have the same length keeps that shape |
| `Frame.AnalyzeFrameIdempotent` | app1.py:76 | running the analysis again on its own output leaves the table unchanged |
| `Tally.ValueCounts` | app1.py:84 | the counts have an entry for exactly the values present in the column, and no zero entries |
| `Tally.Get` | app1.py:93-95 | a lookup gives the stored count for a value that has an entry, and the default for one that has none |
| `Tally.KeyMetrics` | app1.py:93-95 | the three reported figures are the lookups, with default 0, of the texts of Positivo, Neutral and Negativo; `TallyCountsRows` and `AbsentLabelReportsZero` prove that these are the row counts |
| `Tally.MultisetCountsOccurrences` | app1.py:84 | multiset counting agrees with counting the sequence element by element |
| `Tally.ValueCountsGet` | app1.py:84 | looking a value up with default 0 gives the number of cells holding it, 0 when it does not occur |
| `Tally.NamesOccurrences` | app1.py:76-84 | counting a label's text in the result column counts the rows that carry that label |
| `Tally.TallyCountsRows` | app1.py:93-95 | each reported figure equals the number of rows carrying that label |
| `Tally.AbsentLabelReportsZero` | app1.py:93-95 | a label is missing from the counts iff no row carries it, and it is then reported as 0 |
| `Tally.LabelCountSum` | app1.py:76 | every row carries exactly one label, so the three per-label row counts add up to the number of rows |
| `Tally.TallySum` | app1.py:84-95 | the Positivo, Neutral and Negativo figures add up to the number of rows |
| `Tally.Report` | app1.py:76-95 | the whole analysis fails iff the comment column is missing; otherwise the three figures add up to the number of comments and each one counts the rows with its label |
| `Tally.ExampleLabels` | app1.py:66-76 | comments scored 0.62, -0.71 and 0.0 are labelled Positivo, Negativo and Neutral |
| `Tally.ExampleCounts` | app1.py:84 | the column Positivo, Negativo, Neutral holds each label once |
| `Tally.ThreeCommentExample` | app1.py:66-95 | for that three-row table the result column is Positivo, Negativo, Neutral and each figure is 1 |

## Left out

- The page layout (title, sidebar, file uploader, `st.write` output, app1.py:15-60, 79-80, 92-97): presentation only. The model computes the three figures; it does not render them.
- Reading the Excel file (app1.py:56): foreign-library input/output. The table is given as a value.
- The bar chart (app1.py:85-89): rendering only. Its colours are paired with the order of the counts, not with the labels.
- The internals of the lexicon scorer and its construction (app1.py:63, 67): a foreign library. It is a function parameter whose results are assumed to lie in [-1, 1].
- Floating-point scores: the model uses reals, since the code only compares the score with two constants.
- Missing or non-text cells: the code hands each cell to the scorer unchanged and does not turn a missing value into an empty string. Cells are modelled as texts, and no such coercion is modelled.
- Errors raised inside the scorer: not modelled, since the scorer is a total function here.
- The order of the table's columns: a map does not record it, so the model does not say that the new column comes last.
