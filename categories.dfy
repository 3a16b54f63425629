/**
 * The six life elements of the quiz. The question table (app.py:51-111) lists
 * them in a fixed order; that order is also the insertion order of the score
 * dictionary and therefore the order in which the report iterates over it.
 */
module Categories {

  datatype Category = Philosophy | Environment | Talent | Vision | Vitality | Connection

  /** The dictionary key under which the source stores a category. */
  function Label(c: Category): string {
    match c
    case Philosophy => "哲学 (Philosophy)"
    case Environment => "環境 (Environment)"
    case Talent => "才能 (Talent)"
    case Vision => "構想 (Vision)"
    case Vitality => "健康 (Vitality)"
    case Connection => "繋がり (Connection)"
  }

  /** Distinct categories have distinct keys, so a key names one category. */
  lemma LabelIdentifiesCategory(c: Category, d: Category)
    requires Label(c) == Label(d)
    ensures c == d
  {
    assert Label(c)[0] == Label(d)[0];
  }

  /** The categories in question-table order, each exactly once. */
  function Order(): (cs: seq<Category>)
    ensures |cs| == 6
    ensures forall c :: c in cs
    ensures forall i, j :: 0 <= i < j < |cs| ==> cs[i] != cs[j]
  {
    var cs := [Philosophy, Environment, Talent, Vision, Vitality, Connection];
    EveryCategoryListed(cs);
    cs
  }

  lemma EveryCategoryListed(cs: seq<Category>)
    requires cs == [Philosophy, Environment, Talent, Vision, Vitality, Connection]
    ensures forall c :: c in cs
  {
    forall c: Category ensures c in cs {
      match c
      case Philosophy => assert cs[0] == c;
      case Environment => assert cs[1] == c;
      case Talent => assert cs[2] == c;
      case Vision => assert cs[3] == c;
      case Vitality => assert cs[4] == c;
      case Connection => assert cs[5] == c;
    }
  }

  /** How many questions each category asks: Philosophy has seven, the others eight. */
  function QuestionCount(c: Category): (n: nat)
    ensures 7 <= n <= 8
    ensures n == 7 <==> c == Philosophy
  {
    match c
    case Philosophy => 7
    case _ => 8
  }

  /** The keys of `m` that appear in `order`, kept in that order. */
  /** The number of questions asked across the categories `cs`. */
  function QuestionTotal(cs: seq<Category>): nat {
    if cs == [] then 0 else QuestionCount(cs[0]) + QuestionTotal(cs[1..])
  }

  /** The question table holds 47 questions in all. */
  lemma FortySevenQuestions()
    ensures QuestionTotal(Order()) == 47
  {
  }

  function PresentIn<V>(order: seq<Category>, m: map<Category, V>): (cs: seq<Category>)
    ensures forall c :: c in cs <==> c in order && c in m
    ensures |cs| <= |order|
    ensures (forall i, j :: 0 <= i < j < |order| ==> order[i] != order[j]) ==>
              forall i, j :: 0 <= i < j < |cs| ==> cs[i] != cs[j]
  {
    if order == [] then []
    else
      var rest := PresentIn(order[1..], m);
      assert forall c :: c in order[1..] ==> c in order;
      if order[0] in m then [order[0]] + rest else rest
  }

  /**
   * The keys of a category-keyed dictionary in iteration order: every key
   * exactly once, in question-table order.
   */
  function Present<V>(m: map<Category, V>): (cs: seq<Category>)
    ensures forall c :: c in cs <==> c in m
    ensures forall i, j :: 0 <= i < j < |cs| ==> cs[i] != cs[j]
  {
    PresentIn(Order(), m)
  }
}
