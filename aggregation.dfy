/**
 * Score aggregation (app.py:229-277): for each category, in question-table
 * order, the answers of its sliders are collected into a list and the
 * category's score is the arithmetic mean of that list.
 *
 * The widget state is a parameter: `Session` maps a slider key, the pair
 * (category, question index), to the value the respondent left on it. A
 * slider the respondent never touched yields its default value 3.
 */
module Aggregation {
  import opened Wrappers
  import opened Categories

  /** The slider offers the options 1 to 5 (app.py:269). */
  predicate IsAnswer(v: int) {
    1 <= v <= 5
  }

  /** The value a slider shows before it is moved (app.py:244, 270). */
  const DefaultAnswer: int := 3

  type Session = map<(Category, nat), int>

  /** A session in which every stored slider value is one of the options. */
  predicate ValidSession(session: Session) {
    forall k :: k in session ==> IsAnswer(session[k])
  }

  /** The value the slider for question `i` of category `c` returns. */
  function SliderValue(session: Session, c: Category, i: nat): (v: int)
    ensures ValidSession(session) ==> IsAnswer(v)
    ensures (c, i) in session ==> v == session[(c, i)]
    ensures (c, i) !in session ==> v == DefaultAnswer
  {
    if (c, i) in session then session[(c, i)] else DefaultAnswer
  }

  /** The list of answers for category `c`, one per question, in question order. */
  function Answers(session: Session, c: Category): (xs: seq<int>)
    ensures |xs| == QuestionCount(c)
  {
    seq(QuestionCount(c), i requires 0 <= i < QuestionCount(c) => SliderValue(session, c, i))
  }

  function Sum(xs: seq<int>): int {
    if xs == [] then 0 else Sum(xs[..|xs| - 1]) + xs[|xs| - 1]
  }

  /**
   * The arithmetic mean of a list of answers; None stands for the error the
   * mean of an empty list raises.
   */
  function Mean(xs: seq<int>): (r: Option<real>)
    ensures r.None? <==> xs == []
    ensures r.Some? ==> r.value * |xs| as real == Sum(xs) as real
  {
    if xs == [] then None else Some(Sum(xs) as real / |xs| as real)
  }

  /** Answers between 1 and 5 add up to between |xs| and 5 * |xs|. */
  lemma {:induction false} SumBounds(xs: seq<int>)
    requires forall i :: 0 <= i < |xs| ==> IsAnswer(xs[i])
    ensures |xs| <= Sum(xs) <= 5 * |xs|
  {
    if xs != [] {
      SumBounds(xs[..|xs| - 1]);
    }
  }

  /** A list of answers that are all `v` adds up to |xs| * v. */
  lemma {:induction false} SumConstant(xs: seq<int>, v: int)
    requires forall i :: 0 <= i < |xs| ==> xs[i] == v
    ensures Sum(xs) == |xs| * v
  {
    if xs != [] {
      SumConstant(xs[..|xs| - 1], v);
    }
  }

  /** The mean of a non-empty list of slider answers lies in [1, 5]. */
  lemma MeanBounds(xs: seq<int>)
    requires xs != []
    requires forall i :: 0 <= i < |xs| ==> IsAnswer(xs[i])
    ensures Mean(xs).Some? && 1.0 <= Mean(xs).value <= 5.0
  {
    SumBounds(xs);
    var n, m, total := |xs| as real, Mean(xs).value, Sum(xs) as real;
    assert m * n == total;
    assert n <= total <= 5.0 * n;
    QuotientBounds(m, n, total);
  }

  /** A non-empty list of equal answers has exactly that answer as its mean. */
  lemma MeanConstant(xs: seq<int>, v: int)
    requires xs != []
    requires forall i :: 0 <= i < |xs| ==> xs[i] == v
    ensures Mean(xs) == Some(v as real)
  {
    SumConstant(xs, v);
    var n, m := |xs| as real, Mean(xs).value;
    assert m * n == v as real * n;
    QuotientExact(m, n, v as real);
  }

  lemma QuotientBounds(m: real, n: real, total: real)
    requires n > 0.0 && m * n == total
    requires n <= total <= 5.0 * n
    ensures 1.0 <= m <= 5.0
  {
    if m < 1.0 {
      MulMonotone(m, 1.0, n);
    }
    if m > 5.0 {
      MulMonotone(5.0, m, n);
    }
  }

  lemma QuotientExact(m: real, n: real, v: real)
    requires n > 0.0 && m * n == v * n
    ensures m == v
  {
    if m < v {
      MulMonotone(m, v, n);
    }
    if m > v {
      MulMonotone(v, m, n);
    }
  }

  lemma MulMonotone(a: real, b: real, n: real)
    requires n > 0.0 && a < b
    ensures a * n < b * n
  {
  }

  /** The score of one category: the mean of its answers, never empty. */
  function Score(session: Session, c: Category): (s: real)
    ensures ValidSession(session) ==> 1.0 <= s <= 5.0
  {
    var xs := Answers(session, c);
    assert ValidSession(session) ==> 1.0 <= Mean(xs).value <= 5.0 by {
      if ValidSession(session) {
        MeanBounds(xs);
      }
    }
    Mean(xs).value
  }

  /** The score dictionary the quiz builds: one entry per category. */
  function Scores(session: Session): (m: map<Category, real>)
    ensures forall c :: c in m
  {
    map c | c in Order() :: Score(session, c)
  }

  /** Collects the answers of category `c`, appending one slider value per question. */
  method CollectAnswers(session: Session, c: Category) returns (answers: seq<int>)
    ensures answers == Answers(session, c)
  {
    answers := [];
    var i := 0;
    while i < QuestionCount(c)
      invariant 0 <= i <= QuestionCount(c)
      invariant answers == Answers(session, c)[..i]
    {
      answers := answers + [SliderValue(session, c, i)];
      i := i + 1;
    }
  }

  /**
   * Builds the score dictionary category by category; every category gets
   * the mean of its own answers, and valid answers give scores in [1, 5].
   */
  method ComputeScores(session: Session) returns (scores: map<Category, real>)
    ensures scores == Scores(session)
    ensures forall c :: c in scores && Mean(Answers(session, c)) == Some(scores[c])
    ensures ValidSession(session) ==> forall c :: 1.0 <= scores[c] <= 5.0
  {
    var order := Order();
    scores := map[];
    for k := 0 to |order|
      invariant forall c :: c in scores <==> c in order[..k]
      invariant forall c :: c in scores ==> scores[c] == Score(session, c)
    {
      var c := order[k];
      var answers := CollectAnswers(session, c);
      scores := scores[c := Mean(answers).value];
    }
    assert order[..|order|] == order;
  }

  /** With every slider left at its default, every category scores 3. */
  lemma DefaultScores(c: Category)
    ensures Scores(map[])[c] == 3.0
  {
    var xs := Answers(map[], c);
    MeanConstant(xs, DefaultAnswer);
  }
}
