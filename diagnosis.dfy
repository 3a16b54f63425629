/**
 * The whole diagnosis: the quiz's answers are averaged per category
 * (app.py:229-277), the score dictionary is classified (app.py:285) and each
 * score is banded for the report (app.py:310-323).
 */
module Diagnosis {
  import opened Wrappers
  import opened Categories
  import Aggregation
  import Archetypes
  import Feedback

  /** The quiz always yields an archetype: its score dictionary is never empty. */
  lemma QuizAlwaysClassified(session: Aggregation.Session)
    ensures Archetypes.Classify(Aggregation.Scores(session)).Some?
  {
    assert Philosophy in Aggregation.Scores(session);
  }

  /**
   * The quiz fills its dictionary in question-table order, so the report,
   * which iterates in insertion order, lists the six elements in that order.
   */
  lemma QuizKeysInTableOrder(session: Aggregation.Session)
    ensures Present(Aggregation.Scores(session)) == Order()
  {
    var m := Aggregation.Scores(session);
    assert m.Keys == set c | c in Order();
    PresentAll(Order(), m);
  }

  lemma {:induction false} PresentAll(order: seq<Category>, m: map<Category, real>)
    requires forall c :: c in order ==> c in m
    ensures PresentIn(order, m) == order
  {
    if order != [] {
      var rest := order[1..];
      assert forall c :: c in rest ==> c in order;
      PresentAll(rest, m);
      assert order[0] in m;
      assert PresentIn(order, m) == [order[0]] + PresentIn(rest, m);
      assert order == [order[0]] + rest;
    }
  }

  /** A respondent who answers every question with `v` scores exactly `v` everywhere. */
  lemma UniformAnswers(session: Aggregation.Session, v: int, c: Category)
    requires forall d, i: nat :: i < QuestionCount(d) ==> Aggregation.SliderValue(session, d, i) == v
    ensures Aggregation.Scores(session)[c] == v as real
  {
    var xs := Aggregation.Answers(session, c);
    Aggregation.MeanConstant(xs, v);
  }

  /** Left untouched, every slider reads 3, every score is 3.0 and the result is Type 3. */
  lemma UntouchedQuizIsCitizen()
    ensures Archetypes.Classify(Aggregation.Scores(map[])) == Some(Archetypes.Citizen)
  {
    var scores := Aggregation.Scores(map[]);
    forall c ensures Archetypes.Get(scores, c) == 3.0 {
      Aggregation.DefaultScores(c);
    }
    Archetypes.CitizenIff(scores);
  }

  /**
   * Answering every question the same way: 4 or 5 gives Type 5, 1 or 2
   * gives Type 1, and 3 gives Type 3.
   */
  lemma UniformQuiz(session: Aggregation.Session, v: int)
    requires Aggregation.IsAnswer(v)
    requires forall d, i: nat :: i < QuestionCount(d) ==> Aggregation.SliderValue(session, d, i) == v
    ensures Archetypes.Classify(Aggregation.Scores(session)) ==
              Some(if v >= 4 then Archetypes.Sovereign
                   else if v <= 2 then Archetypes.WoundedWarrior
                   else Archetypes.Citizen)
  {
    var scores := Aggregation.Scores(session);
    forall c ensures scores[c] == v as real && Archetypes.Get(scores, c) == v as real {
      UniformAnswers(session, v, c);
    }
    assert Philosophy in scores;
    if v >= 4 {
      assert Archetypes.AllAtLeast(scores, 4.0);
      Archetypes.SovereignIff(scores);
    } else if v <= 2 {
      assert !Archetypes.AllAtLeast(scores, 4.0) by {
        assert scores[Philosophy] < 4.0;
      }
      assert Archetypes.Get(scores, Vitality) < 3.0;
      Archetypes.WoundedWarriorIff(scores);
    } else {
      assert Archetypes.Get(scores, Vitality) >= 3.0;
      Archetypes.CitizenIff(scores);
    }
  }

  /** On a quiz result, Type 5 is returned exactly when every category is in band H. */
  lemma SovereignIffAllHigh(session: Aggregation.Session)
    ensures Archetypes.Classify(Aggregation.Scores(session)) == Some(Archetypes.Sovereign) <==>
              forall c :: Feedback.Band(Aggregation.Scores(session)[c]) == Feedback.H
  {
    var scores := Aggregation.Scores(session);
    Archetypes.SovereignIff(scores);
    assert Philosophy in scores;
    assert Archetypes.AllAtLeast(scores, 4.0) <==> forall c :: Feedback.Band(scores[c]) == Feedback.H by {
      if Archetypes.AllAtLeast(scores, 4.0) {
        forall c ensures Feedback.Band(scores[c]) == Feedback.H {
          assert scores[c] >= 4.0;
        }
      }
    }
  }

  /**
   * On a quiz result, Type 3 is returned exactly when no category is in
   * band H and Vitality is at least 3.0; in particular Vitality is then in
   * band M.
   */
  lemma CitizenIffNoHighBand(session: Aggregation.Session)
    ensures Archetypes.Classify(Aggregation.Scores(session)) == Some(Archetypes.Citizen) <==>
              (forall c :: Feedback.Band(Aggregation.Scores(session)[c]) != Feedback.H) &&
              Aggregation.Scores(session)[Vitality] >= 3.0
    ensures Archetypes.Classify(Aggregation.Scores(session)) == Some(Archetypes.Citizen) ==>
              Feedback.Band(Aggregation.Scores(session)[Vitality]) == Feedback.M
  {
    var scores := Aggregation.Scores(session);
    Archetypes.CitizenIff(scores);
    assert forall c :: Archetypes.Get(scores, c) == scores[c];
  }
}
