/**
 * The "Life Elements Analysis" report (app.py:310-323): each category score
 * is put in one of three bands, and the band picks a tag out of the fixed
 * `definitions` table (app.py:114-145). The advice paragraph paired with
 * each tag is prose and is not modelled.
 */
module Feedback {
  import opened Wrappers
  import opened Categories

  /** The three bands, written H, M and L in the source. */
  datatype Level = H | M | L

  /** The band of a score: 4.0 and above is H, 2.5 up to 4.0 is M, the rest L. */
  function Band(score: real): (l: Level)
    ensures l == H <==> score >= 4.0
    ensures l == M <==> 2.5 <= score < 4.0
    ensures l == L <==> score < 2.5
  {
    if score >= 4.0 then H
    else if score >= 2.5 then M
    else L
  }

  /** The order of the bands: L below M below H. */
  function Height(l: Level): (n: nat)
    ensures n <= 2
  {
    match l
    case L => 0
    case M => 1
    case H => 2
  }

  /** A higher score never lands in a lower band. */
  lemma BandMonotone(s: real, t: real)
    requires s <= t
    ensures Height(Band(s)) <= Height(Band(t))
  {
  }

  /** The two boundaries belong to the upper band. */
  lemma BandBoundaries()
    ensures Band(4.0) == H && Band(2.5) == M
    ensures forall s :: 2.5 <= s < 4.0 ==> Band(s) == M
  {
  }

  /** The tag `definitions[cat][level]` shows beside the score, opening with a 【 bracket. */
  function Tag(c: Category, l: Level): (t: string)
    ensures |t| > 1 && t[0] == '【'
  {
    match (c, l)
    case (Philosophy, H) => "【確立】"
    case (Philosophy, M) => "【模索】"
    case (Philosophy, L) => "【不在】"
    case (Environment, H) => "【調和】"
    case (Environment, M) => "【均衡】"
    case (Environment, L) => "【疲弊】"
    case (Talent, H) => "【開花】"
    case (Talent, M) => "【原石】"
    case (Talent, L) => "【封印】"
    case (Vision, H) => "【鮮明】"
    case (Vision, M) => "【展望】"
    case (Vision, L) => "【漂流】"
    case (Vitality, H) => "【充実】"
    case (Vitality, M) => "【維持】"
    case (Vitality, L) => "【枯渇】"
    case (Connection, H) => "【愛】"
    case (Connection, M) => "【協調】"
    case (Connection, L) => "【孤独】"
  }

  /** No two entries of the table share a tag. */
  lemma TagIdentifiesEntry(c: Category, l: Level, d: Category, k: Level)
    requires Tag(c, l) == Tag(d, k)
    ensures c == d && l == k
  {
    assert Tag(c, l)[1] == Tag(d, k)[1];
  }

  /** Reads a category's tag back to its band; None for a tag of another row. */
  function LevelOfTag(c: Category, tag: string): (r: Option<Level>)
    ensures r.Some? ==> Tag(c, r.value) == tag
  {
    if tag == Tag(c, H) then Some(H)
    else if tag == Tag(c, M) then Some(M)
    else if tag == Tag(c, L) then Some(L)
    else None
  }

  /** The tag shown names its band unambiguously. */
  lemma LevelOfTagRoundTrip(c: Category, l: Level)
    ensures LevelOfTag(c, Tag(c, l)) == Some(l)
  {
    if l != H {
      assert Tag(c, l)[1] != Tag(c, H)[1];
    }
    if l == L {
      assert Tag(c, l)[1] != Tag(c, M)[1];
    }
  }

  /** One line of the report: the category, its score, its band and its tag. */
  datatype Row = Row(category: Category, score: real, level: Level, tag: string)

  /** The line the report prints for category `c` at score `s`. */
  function Report(c: Category, s: real): (row: Row)
    ensures row.category == c && row.score == s
    ensures row.level == Band(s) && row.tag == Tag(c, row.level)
  {
    var l := Band(s);
    Row(c, s, l, Tag(c, l))
  }

  /** A line's tag reads back to the band of its score. */
  lemma ReportTagNamesBand(c: Category, s: real)
    ensures LevelOfTag(c, Report(c, s).tag) == Some(Band(s))
  {
    LevelOfTagRoundTrip(c, Band(s));
  }

  /** The lines printed for the categories `keys`, in that order. */
  function Lines(keys: seq<Category>, scores: map<Category, real>): seq<Row>
    requires forall c :: c in keys ==> c in scores
  {
    if keys == [] then []
    else
      var last := keys[|keys| - 1];
      Lines(keys[..|keys| - 1], scores) + [Report(last, scores[last])]
  }

  /** Line `i` of the report is the banded, tagged score of the `i`-th category. */
  lemma {:induction false} LinesAreReports(keys: seq<Category>, scores: map<Category, real>)
    requires forall c :: c in keys ==> c in scores
    ensures |Lines(keys, scores)| == |keys|
    ensures forall i :: 0 <= i < |keys| ==> Lines(keys, scores)[i] == Report(keys[i], scores[keys[i]])
  {
    if keys != [] {
      var init := keys[..|keys| - 1];
      var last := keys[|keys| - 1];
      assert forall c :: c in init ==> c in keys;
      LinesAreReports(init, scores);
      var rows := Lines(keys, scores);
      assert rows == Lines(init, scores) + [Report(last, scores[last])];
      forall i | 0 <= i < |keys| ensures rows[i] == Report(keys[i], scores[keys[i]]) {
        if i < |init| {
          assert rows[i] == Lines(init, scores)[i];
          assert init[i] == keys[i];
        } else {
          assert rows[i] == Report(last, scores[last]);
        }
      }
    }
  }

  /**
   * The report loop: one line per score in the dictionary's order, each
   * banded and tagged.
   */
  method AnalyseElements(scores: map<Category, real>) returns (rows: seq<Row>)
    ensures rows == Lines(Present(scores), scores)
  {
    rows := ReportLines(Present(scores), scores);
  }

  /** The body of the report loop, for the categories `keys` in turn. */
  method ReportLines(keys: seq<Category>, scores: map<Category, real>) returns (rows: seq<Row>)
    requires forall c :: c in keys ==> c in scores
    ensures rows == Lines(keys, scores)
  {
    rows := [];
    for k := 0 to |keys|
      invariant rows == Lines(keys[..k], scores)
    {
      assert keys[..k + 1][..k] == keys[..k];
      rows := rows + [Report(keys[k], scores[keys[k]])];
    }
    assert keys[..|keys|] == keys;
  }

  /**
   * The report has one line for every category the dictionary holds and for
   * nothing else, and no category twice.
   */
  lemma ReportCoversScores(scores: map<Category, real>)
    ensures var rows := Lines(Present(scores), scores);
            (forall c :: c in scores <==> exists i :: 0 <= i < |rows| && rows[i].category == c) &&
            (forall i, j :: 0 <= i < j < |rows| ==> rows[i].category != rows[j].category)
  {
    var keys := Present(scores);
    var rows := Lines(keys, scores);
    LinesAreReports(keys, scores);
    forall c | c in scores ensures exists i :: 0 <= i < |rows| && rows[i].category == c {
      var i :| 0 <= i < |keys| && keys[i] == c;
      assert rows[i].category == c;
    }
  }

  /** Each line shows its category's score, the band of that score and a tag naming the band. */
  lemma ReportShowsBands(scores: map<Category, real>)
    ensures var rows := Lines(Present(scores), scores);
            forall i :: 0 <= i < |rows| ==>
              rows[i].category in scores &&
              rows[i].score == scores[rows[i].category] &&
              rows[i].level == Band(rows[i].score) &&
              LevelOfTag(rows[i].category, rows[i].tag) == Some(rows[i].level)
  {
    var keys := Present(scores);
    var rows := Lines(keys, scores);
    LinesAreReports(keys, scores);
    forall i | 0 <= i < |rows| ensures LevelOfTag(rows[i].category, rows[i].tag) == Some(rows[i].level) {
      ReportTagNamesBand(keys[i], scores[keys[i]]);
    }
  }
}
