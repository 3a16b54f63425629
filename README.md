# Life Mapping diagnosis — a Dafny model

Life Mapping is a self-assessment quiz with 47 questions in six life elements:
Philosophy, Environment, Talent, Vision, Vitality and Connection. Each answer is
a value from 1 to 5. The quiz averages the answers of each element into a score,
classifies the six scores into one of thirteen archetypes ("Type 1" to
"Type 13"), and prints a report with one line per element. Each line bands the
score as H, M or L and shows the tag the `definitions` table gives for that
band. (The page subtitle at app.py:197 announces 36 questions. The question
table at app.py:52-110 holds 7 + 5 × 8 = 47.)

This project models those three steps and proves what they promise:

- `categories.dfy`:
  - the six elements, their dictionary keys and their question-table order;
  - how many questions each element asks (Philosophy 7, the rest 8).
- `aggregation.dfy`:
  - the slider values, with the default 3 for an untouched slider;
  - the mean of a list of answers;
  - the loops that collect each element's answers and fill the score dictionary.
- `archetypes.dfy`: `calculate_archetype`, and the decision table read
  declaratively:
  - one guard per archetype;
  - the order in which the guards are tried;
  - "first match wins";
  - the characteristic consequences of that order.
- `feedback.dfy`:
  - the H/M/L banding;
  - the tag table;
  - the report loop.
- `diagnosis.dfy`: the pipeline end to end (answers, then scores, then
  archetype and bands).

A score dictionary is a `map<Category, real>`. `Get` reads a missing element as
0, as `scores.get(key, 0)` does. The minimum and maximum are taken over the
values actually present. An empty dictionary makes `min` raise, and `Classify`
returns `None` for it.

Python floats are modelled as exact reals. Every score the quiz produces is a
mean of seven or eight integers in [1, 5]. Such a value is k/7 or k/8, and it
lies at least 1/14 away from each threshold 2.5, 3.0, 3.5 and 4.0 unless it
equals the threshold. All four thresholds are exact in binary, and float
rounding is monotone, so every comparison the program makes has the same
outcome on floats and on reals.

The `max_score < 2.5` half of the Type 1 test (app.py:164) never decides
anything for a non-empty dictionary (`Archetypes.BurnoutMaxRedundant`). When
every score is below 2.5, Vitality is either present and below 2.5, or absent
and read as 0, so `vit < 3.0` already holds.

The specification describes a missing score key as an error. The code reads it
as 0 instead (app.py:149-154), and the model follows the code.

## Model

| member | source | states |
|---|---|---|
| Categories.Order | app.py:51-111 | the question table lists each of the six elements exactly once |
| Categories.QuestionCount | app.py:52-110 | Philosophy asks 7 questions, every other element asks 8 |
| Categories.FortySevenQuestions | app.py:52-110 | the question table holds 47 questions in all |
| Categories.LabelIdentifiesCategory | app.py:52-110 | the dictionary keys of distinct elements differ |
| Categories.Present | app.py:276-277 | the keys of a score dictionary in question-table order, which is the insertion order of the quiz's dictionary: exactly the elements present, none twice |
| Aggregation.SliderValue | app.py:241-245 | an untouched slider returns 3; a stored value from 1..5 is returned as is |
| Aggregation.Answers | app.py:233-273 | one answer per question of the element |
| Aggregation.Mean | app.py:277 | the mean times the list length is the sum; an empty list has no mean |
| Aggregation.SumBounds | app.py:266-273 | answers from 1..5 sum to between n and 5n |
| Aggregation.MeanBounds | app.py:266-277 | the mean of a non-empty list of slider answers lies in [1, 5] |
| Aggregation.MeanConstant | app.py:270-277 | a list of equal answers has that answer as its mean |
| Aggregation.Score | app.py:233-277 | valid answers give an element score in [1, 5] |
| Aggregation.Scores | app.py:229-277 | the quiz's dictionary holds a score for every element |
| Aggregation.CollectAnswers | app.py:233-273 | the loop collects exactly the element's answers, in question order |
| Aggregation.ComputeScores | app.py:229-277 | the loop fills the dictionary with every element; each value is the mean of that element's answers; valid answers give values in [1, 5] |
| Aggregation.DefaultScores | app.py:244-277 | with every slider untouched, every element scores exactly 3.0 |
| Archetypes.TypeNumber | app.py:161-192 | each archetype's printed type number lies in 1..13 |
| Archetypes.Name | app.py:161-192 | each archetype's name starts with "Type", its type number and a colon |
| Archetypes.NameIdentifiesArchetype | app.py:161-192 | the returned name alone determines the archetype |
| Archetypes.Icon | app.py:161-192 | each icon is one emoji; the icons of Types 1, 7 and 13 carry the variation selector U+FE0F |
| Archetypes.IconIdentifiesArchetype | app.py:161-192 | the returned icon alone determines the archetype |
| Archetypes.Get | app.py:149-154 | a present element reads as its score, a missing one as 0 |
| Archetypes.Values | app.py:156-157 | every score in the dictionary is among the values; the values are empty only for an empty dictionary |
| Archetypes.MinOf | app.py:156 | the minimum is one of the values and is at most every value |
| Archetypes.MaxOf | app.py:157 | the maximum is one of the values and is at least every value |
| Archetypes.Read | app.py:149-157 | the minimum and the maximum are values of the dictionary, and the minimum is at most the maximum |
| Archetypes.Decide | app.py:160-192 | the chain returns an archetype whose test passes, and every test before it fails |
| Archetypes.Classify | app.py:148-192 | an archetype exactly when the dictionary is non-empty, since an empty one makes `min` raise |
| Archetypes.Verdict | app.py:148-192 | the (name, icon) pair is returned exactly for a non-empty dictionary, and the name carries the type number of the classified archetype |
| Archetypes.VerdictDeterminesArchetype | app.py:148-192 | two dictionaries that show the same name, or the same icon, were classified alike |
| Archetypes.MinAtLeast | app.py:156-160 | `min_score >= t` holds exactly when every score is at least t |
| Archetypes.MaxBelow | app.py:157-164 | `max_score < t` holds exactly when every score is below t |
| Archetypes.GuardsAreFires | app.py:156-189 | each archetype's guard, stated over the scores, is the source's test over min, max and the six reads |
| Archetypes.FirstMatchWins | app.py:148-192 | a non-empty dictionary classifies as a exactly when a's guard holds and no earlier guard holds |
| Archetypes.ReadBridge | app.py:148-165 | the six reads are the scores with default 0; the minimum test is the all-at-least-4.0 test; the burnout test reduces to Vitality < 3.0 |
| Archetypes.SovereignIff | app.py:156-161 | Type 5 exactly when the dictionary is non-empty and every score is at least 4.0, whatever else holds |
| Archetypes.BurnoutMaxRedundant | app.py:157-164 | `max_score < 2.5` never changes the burnout test: when it holds, Vitality < 3.0 holds too |
| Archetypes.WoundedWarriorIff | app.py:156-165 | Type 1 exactly when not every score is at least 4.0 and Vitality (default 0) is below 3.0 |
| Archetypes.LeaderIff | app.py:156-169 | Type 9 exactly when the first two rules fail, Connection and Vision are at least 4.0, and Vitality is at least 3.5, even if Talent would also give Type 13 |
| Archetypes.DecideLeaderSkipped | app.py:168-192 | on the chain: with Connection and Vision high and Vitality in [3.0, 3.5), the later rules decide |
| Archetypes.LeaderSkippedOnLowVitality | app.py:168-192 | with Connection and Vision high and Vitality in [3.0, 3.5), Type 9 is skipped; the result is Type 13, 7, 2 or 12, in that priority |
| Archetypes.DecideCompoundIff | app.py:160-192 | on the chain: a compound type is returned exactly when the first two tests fail and some compound test passes |
| Archetypes.CompoundIff | app.py:160-189 | a compound type (9, 13, 10 or 7) exactly when the first two rules fail and some compound guard holds, so a satisfied compound rule beats every single-element rule |
| Archetypes.DecidePhilosophyAndVision | app.py:168-179 | on the chain: high Philosophy and Vision give Type 9, 13 or 7, never Type 4 |
| Archetypes.PhilosophyAndVisionIsCompound | app.py:168-179 | with Philosophy and Vision at least 4.0 past the first two rules, the result is Type 9, 13 or 7, never Type 4 |
| Archetypes.SingleOf | app.py:178-189 | the single-element archetypes come after the compound ones; Connection's comes last |
| Archetypes.DecideSingleIff | app.py:160-192 | on the chain: an element's single type is returned exactly when nothing earlier fires, that element is high, and every element tried before it is not |
| Archetypes.SingleIff | app.py:178-189 | an element's single type exactly when the first two rules fail, no compound guard holds, that element is at least 4.0, and every element tried before it (Philosophy, Environment, Talent, Vision, Vitality, Connection) is below 4.0 |
| Archetypes.LoverMeansOthersBelow | app.py:178-189 | a Type 11 result implies every other element is below 4.0 |
| Archetypes.DecideCitizenIff | app.py:160-192 | on the chain: the default is reached exactly when the first two tests fail and all six reads are below 4.0 |
| Archetypes.CitizenIff | app.py:148-192 | Type 3 exactly when Vitality is at least 3.0 and every element is below 4.0 (the maximum is then at least 3.0) |
| Archetypes.EveryArchetypeReachable | app.py:148-192 | every one of the thirteen archetypes is the result for some complete dictionary: no rule is dead |
| Archetypes.ArchitectExample | app.py:170-175 | Philosophy 4.5, Environment 2.0, Talent 4.2, Vision 4.3, Vitality 3.8 and Connection 3.0 give Type 13, not Type 7 |
| Feedback.Band | app.py:312-320 | H exactly when the score is at least 4.0; M exactly on [2.5, 4.0); L exactly below 2.5 |
| Feedback.BandMonotone | app.py:312-320 | a higher score never lands in a lower band |
| Feedback.BandBoundaries | app.py:312-320 | exactly 4.0 is H and exactly 2.5 is M |
| Feedback.Tag | app.py:114-145 | each tag of the `definitions` table opens with a 【 bracket |
| Feedback.TagIdentifiesEntry | app.py:114-145 | no two (element, band) entries of the table share a tag |
| Feedback.LevelOfTag | app.py:114-145 | a tag read back as a band is the tag of that band |
| Feedback.LevelOfTagRoundTrip | app.py:114-145 | an element's tag for a band reads back to that same band |
| Feedback.Report | app.py:312-323 | a report line carries its element and score, the band of the score, and the tag `definitions` gives that band |
| Feedback.ReportTagNamesBand | app.py:312-323 | a report line's tag reads back to the band of its score |
| Feedback.LinesAreReports | app.py:310-323 | line i of the report is the banded, tagged score of the i-th element |
| Feedback.AnalyseElements | app.py:310-323 | the report loop produces exactly the report lines for the dictionary's elements, in question-table order, which is the insertion order of the quiz's dictionary |
| Feedback.ReportLines | app.py:310-323 | the loop body, run over the given elements in turn, produces their lines |
| Feedback.ReportCoversScores | app.py:310 | the report has one line per element in the dictionary, no others, and none twice |
| Feedback.ReportShowsBands | app.py:310-323 | each line shows its element's score, the band of that score, and a tag naming that band |
| Diagnosis.QuizAlwaysClassified | app.py:277-285 | a quiz result always classifies, because its dictionary is never empty |
| Diagnosis.QuizKeysInTableOrder | app.py:229-277 | the quiz's dictionary holds the six elements in question-table order, the order in which they were inserted |
| Diagnosis.UniformAnswers | app.py:266-277 | answering every question with v scores exactly v in every element |
| Diagnosis.UntouchedQuizIsCitizen | app.py:192-277 | with every slider left at 3, the result is Type 3 |
| Diagnosis.UniformQuiz | app.py:156-192 | uniform answers of 4 or 5 give Type 5, of 1 or 2 give Type 1, and of 3 give Type 3 |
| Diagnosis.SovereignIffAllHigh | app.py:156-161 | on a quiz result, Type 5 exactly when every element's band is H |
| Diagnosis.CitizenIffNoHighBand | app.py:178-192 | on a quiz result, Type 3 exactly when no band is H and Vitality is at least 3.0; Vitality's band is then M |

`Archetypes.Decide` is the chain of guarded returns, in the source's order. The
name and icon of each archetype (`Archetypes.Name`, `Archetypes.Icon`) and the
tag table (`Feedback.Tag`) hold the source's strings verbatim.
`Archetypes.Verdict` assembles the name and the icon into the pair the source
returns; the description in between is not modelled.

## Left out

- The Streamlit page is left out because it is presentation only: page
  configuration, meta tags, CSS, headers, the introduction text, the coloured
  legend above each slider, balloons and success messages, and the links.
- The name-required check before the result is shown is left out because it is
  UI flow, not diagnosis logic.
- Slider widgets and `st.session_state` are framework state. They are modelled
  only as a map from slider key to stored value. The widget guarantees that
  each value is one of 1..5, and `ValidSession` states that as a hypothesis.
- The Plotly radar chart and the bar width `score/5*100` are left out because
  they are a foreign library and presentation arithmetic.
- The bar colours and the `tag-blue`/`tag-green`/`tag-red` classes are left out
  because they are presentation only.
- The question texts, the archetype description paragraphs and the advice
  paragraphs of `definitions` are left out as static prose. The archetype
  names and icons, and the tags, are modelled.
- Categories.Present: Dafny maps carry no insertion order. The model iterates in
  question-table order, which is the insertion order of the dictionary the
  quiz builds (`Diagnosis.QuizKeysInTableOrder`). A dictionary built in any
  other order would be reported in table order.
- Archetypes.Classify: keys other than the six elements are not modelled,
  because the quiz never produces them. `scores.get` would ignore them, but
  they would enter `min` and `max`.
- Archetypes.Classify: scores are exact reals, not IEEE doubles. As argued
  above, this changes no comparison for scores the quiz can produce.
- Aggregation.Mean: `statistics.mean` raises on an empty list, and the model
  returns `None`. Every quiz list is non-empty, so the case never arises.
