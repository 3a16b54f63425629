/**
 * The archetype classifier (app.py:148-192): a fixed decision table over the
 * six category scores in which the first rule whose guard holds decides.
 *
 * Scores are read from the dictionary with a default of 0 for a missing
 * category (app.py:149-154), while the minimum and the maximum are taken over
 * the values the dictionary actually holds (app.py:156-157); an empty
 * dictionary makes the minimum raise, which the model returns as None.
 */
module Archetypes {
  import opened Wrappers
  import opened Categories

  /** The thirteen archetypes; the comment gives the type number the source prints. */
  datatype Archetype =
    | WoundedWarrior  // Type 1
    | Guardian        // Type 2
    | Citizen         // Type 3
    | Sage            // Type 4
    | Sovereign       // Type 5
    | Adventurer      // Type 6
    | Strategist      // Type 7
    | Craftsman       // Type 8
    | Leader          // Type 9
    | Performer       // Type 10
    | Lover           // Type 11
    | Dreamer         // Type 12
    | Architect       // Type 13

  /** The type number the source prints for each archetype. */
  function TypeNumber(a: Archetype): (k: nat)
    ensures 1 <= k <= 13
  {
    match a
    case WoundedWarrior => 1
    case Guardian => 2
    case Citizen => 3
    case Sage => 4
    case Sovereign => 5
    case Adventurer => 6
    case Strategist => 7
    case Craftsman => 8
    case Leader => 9
    case Performer => 10
    case Lover => 11
    case Dreamer => 12
    case Architect => 13
  }

  /** The decimal numeral of a type number. */
  function Numeral(k: nat): (s: string)
    requires 1 <= k <= 13
    ensures |s| == if k < 10 then 1 else 2
  {
    if k < 10 then [('0' as int + k) as char]
    else ['1', ('0' as int + k - 10) as char]
  }

  /**
   * The display name of the returned tuple: "Type", the archetype's number,
   * a colon and the Japanese title. The description paragraph is not modelled.
   */
  function Name(a: Archetype): (n: string)
    ensures "Type " + Numeral(TypeNumber(a)) + ": " <= n
  {
    match a
    case WoundedWarrior => "Type 1: 傷ついた戦士"
    case Guardian => "Type 2: 守り育てる守護者"
    case Citizen => "Type 3: 調和する市民"
    case Sage => "Type 4: 哲学する賢者"
    case Sovereign => "Type 5: 統合された統治者"
    case Adventurer => "Type 6: 活気ある冒険家"
    case Strategist => "Type 7: 戦略的な策士"
    case Craftsman => "Type 8: 孤高の職人"
    case Leader => "Type 9: 求心力あるリーダー"
    case Performer => "Type 10: 輝ける表現者"
    case Lover => "Type 11: 愛の人"
    case Dreamer => "Type 12: 夢見る旅人"
    case Architect => "Type 13: 構想する建築家"
  }

  /**
   * The icon of the returned tuple: one emoji, followed by the variation
   * selector U+FE0F for the three whose base character is not an emoji by
   * default.
   */
  function Icon(a: Archetype): (i: string)
    ensures |i| == 2 <==> a == WoundedWarrior || a == Strategist || a == Architect
    ensures |i| == 2 ==> i[1] == '\U{FE0F}'
    ensures 1 <= |i| <= 2
  {
    match a
    case WoundedWarrior => "🛡️"
    case Guardian => "🌳"
    case Citizen => "🌱"
    case Sage => "🦉"
    case Sovereign => "👑"
    case Adventurer => "🔥"
    case Strategist => "♟️"
    case Craftsman => "🔨"
    case Leader => "🌞"
    case Performer => "🌟"
    case Lover => "💞"
    case Dreamer => "🌈"
    case Architect => "🏗️"
  }

  /** The icon alone tells which archetype was returned. */
  lemma IconIdentifiesArchetype(a: Archetype, b: Archetype)
    requires Icon(a) == Icon(b)
    ensures a == b
  {
    assert Icon(a)[0] == Icon(b)[0];
  }

  /** The name alone tells which archetype was returned. */
  lemma NameIdentifiesArchetype(a: Archetype, b: Archetype)
    requires Name(a) == Name(b)
    ensures a == b
  {
    assert Name(a)[5..7] == Name(b)[5..7];
  }

  type Scores = map<Category, real>

  /** `scores.get(c, 0)`. */
  function Get(scores: Scores, c: Category): (s: real)
    ensures c in scores ==> s == scores[c]
    ensures c !in scores ==> s == 0.0
  {
    if c in scores then scores[c] else 0.0
  }

  /** The dictionary's values in iteration order. */
  function Values(scores: Scores): (vs: seq<real>)
    ensures forall c :: c in scores ==> scores[c] in vs
    ensures vs == [] <==> scores == map[]
  {
    var keys := Present(scores);
    var vs := seq(|keys|, i requires 0 <= i < |keys| => scores[keys[i]]);
    assert forall c :: c in scores ==> scores[c] in vs by {
      forall c | c in scores ensures scores[c] in vs {
        var i :| 0 <= i < |keys| && keys[i] == c;
        assert vs[i] == scores[c];
      }
    }
    assert vs == [] <==> scores == map[] by {
      if vs == [] {
        assert forall c :: c !in scores;
        assert scores.Keys == {};
      } else {
        assert keys[0] in scores;
      }
    }
    vs
  }

  /** Every element of the values list is the score of some category present. */
  lemma ValuesAreScores(scores: Scores, x: real)
    requires x in Values(scores)
    ensures exists c :: c in scores && scores[c] == x
  {
    var keys := Present(scores);
    var i :| 0 <= i < |keys| && Values(scores)[i] == x;
    assert keys[i] in scores;
  }

  /** The smallest element of a non-empty list (Python's `min`). */
  function MinOf(vs: seq<real>): (lo: real)
    requires vs != []
    ensures lo in vs
    ensures forall x :: x in vs ==> lo <= x
  {
    if |vs| == 1 then vs[0]
    else
      var rest := MinOf(vs[1..]);
      assert forall x :: x in vs ==> x == vs[0] || x in vs[1..];
      if vs[0] <= rest then vs[0] else rest
  }

  /** The largest element of a non-empty list (Python's `max`). */
  function MaxOf(vs: seq<real>): (hi: real)
    requires vs != []
    ensures hi in vs
    ensures forall x :: x in vs ==> x <= hi
  {
    if |vs| == 1 then vs[0]
    else
      var rest := MaxOf(vs[1..]);
      assert forall x :: x in vs ==> x == vs[0] || x in vs[1..];
      if vs[0] >= rest then vs[0] else rest
  }

  /**
   * What `calculate_archetype` reads before deciding: the six scores with
   * their default, and the minimum and maximum of the dictionary's values.
   */
  datatype Reading = Reading(phi: real, env: real, tal: real, des: real,
                             vit: real, con: real, lo: real, hi: real)

  function Read(scores: Scores): (r: Reading)
    requires scores != map[]
    ensures r.lo in Values(scores) && r.hi in Values(scores) && r.lo <= r.hi
  {
    var vs := Values(scores);
    Reading(Get(scores, Philosophy), Get(scores, Environment), Get(scores, Talent),
            Get(scores, Vision), Get(scores, Vitality), Get(scores, Connection),
            MinOf(vs), MaxOf(vs))
  }

  /** The chain of guarded returns, in the source's order. */
  function Decide(r: Reading): (d: Archetype)
    ensures Fires(d, r)
    ensures forall b :: Rank(b) < Rank(d) ==> !Fires(b, r)
  {
    if r.lo >= 4.0 then Sovereign
    else if r.vit < 3.0 || r.hi < 2.5 then WoundedWarrior
    else if r.con >= 4.0 && r.des >= 4.0 && r.vit >= 3.5 then Leader
    else if r.tal >= 4.0 && r.des >= 4.0 then Architect
    else if r.tal >= 4.0 && r.con >= 4.0 then Performer
    else if r.phi >= 4.0 && r.des >= 4.0 then Strategist
    else if r.phi >= 4.0 then Sage
    else if r.env >= 4.0 then Guardian
    else if r.tal >= 4.0 then Craftsman
    else if r.des >= 4.0 then Dreamer
    else if r.vit >= 4.0 then Adventurer
    else if r.con >= 4.0 then Lover
    else Citizen
  }

  /**
   * `calculate_archetype`. None stands for the error `min` raises on an
   * empty dictionary.
   */
  function Classify(scores: Scores): (r: Option<Archetype>)
    ensures r.None? <==> scores == map[]
  {
    if scores == map[] then None else Some(Decide(Read(scores)))
  }

  /**
   * The (name, icon) pair of the tuple `calculate_archetype` returns; the
   * description paragraph in between is not modelled.
   */
  function Verdict(scores: Scores): (r: Option<(string, string)>)
    ensures r.None? <==> scores == map[]
    ensures r.Some? ==> "Type " + Numeral(TypeNumber(Classify(scores).value)) + ": " <= r.value.0
  {
    match Classify(scores)
    case None => None
    case Some(a) => Some((Name(a), Icon(a)))
  }

  /**
   * Either half of the printed pair, the name or the icon, determines the
   * archetype: two dictionaries showing the same name, or the same icon,
   * were classified alike.
   */
  lemma VerdictDeterminesArchetype(s1: Scores, s2: Scores)
    requires Verdict(s1).Some? && Verdict(s2).Some?
    requires Verdict(s1).value.0 == Verdict(s2).value.0 || Verdict(s1).value.1 == Verdict(s2).value.1
    ensures Classify(s1) == Classify(s2)
  {
    var a, b := Classify(s1).value, Classify(s2).value;
    if Name(a) == Name(b) {
      NameIdentifiesArchetype(a, b);
    } else {
      IconIdentifiesArchetype(a, b);
    }
  }

  // ---------------------------------------------------------------------
  // The decision table read declaratively: one guard per archetype, stated
  // over the scores themselves rather than over their minimum and maximum,
  // and the order in which the guards are tried.
  // ---------------------------------------------------------------------

  ghost predicate AllAtLeast(scores: Scores, t: real) {
    forall c :: c in scores ==> scores[c] >= t
  }

  ghost predicate AllBelow(scores: Scores, t: real) {
    forall c :: c in scores ==> scores[c] < t
  }

  /** The condition under which the rule of archetype `a` fires. */
  ghost predicate Guard(a: Archetype, scores: Scores) {
    var phi, env, tal := Get(scores, Philosophy), Get(scores, Environment), Get(scores, Talent);
    var des, vit, con := Get(scores, Vision), Get(scores, Vitality), Get(scores, Connection);
    match a
    case Sovereign => AllAtLeast(scores, 4.0)
    case WoundedWarrior => vit < 3.0 || AllBelow(scores, 2.5)
    case Leader => con >= 4.0 && des >= 4.0 && vit >= 3.5
    case Architect => tal >= 4.0 && des >= 4.0
    case Performer => tal >= 4.0 && con >= 4.0
    case Strategist => phi >= 4.0 && des >= 4.0
    case Sage => phi >= 4.0
    case Guardian => env >= 4.0
    case Craftsman => tal >= 4.0
    case Dreamer => des >= 4.0
    case Adventurer => vit >= 4.0
    case Lover => con >= 4.0
    case Citizen => true
  }

  /** The position of an archetype's rule in the table (0 is tried first). */
  function Rank(a: Archetype): (k: nat)
    ensures k < 13
  {
    match a
    case Sovereign => 0
    case WoundedWarrior => 1
    case Leader => 2
    case Architect => 3
    case Performer => 4
    case Strategist => 5
    case Sage => 6
    case Guardian => 7
    case Craftsman => 8
    case Dreamer => 9
    case Adventurer => 10
    case Lover => 11
    case Citizen => 12
  }

  /** The rule of `a` fires and no rule tried before it does. */
  ghost predicate FirstToFire(a: Archetype, scores: Scores) {
    Guard(a, scores) && forall b :: Rank(b) < Rank(a) ==> !Guard(b, scores)
  }

  /** The guard of `a` evaluated on what the source reads. */
  predicate Fires(a: Archetype, r: Reading) {
    match a
    case Sovereign => r.lo >= 4.0
    case WoundedWarrior => r.vit < 3.0 || r.hi < 2.5
    case Leader => r.con >= 4.0 && r.des >= 4.0 && r.vit >= 3.5
    case Architect => r.tal >= 4.0 && r.des >= 4.0
    case Performer => r.tal >= 4.0 && r.con >= 4.0
    case Strategist => r.phi >= 4.0 && r.des >= 4.0
    case Sage => r.phi >= 4.0
    case Guardian => r.env >= 4.0
    case Craftsman => r.tal >= 4.0
    case Dreamer => r.des >= 4.0
    case Adventurer => r.vit >= 4.0
    case Lover => r.con >= 4.0
    case Citizen => true
  }

  /** The minimum of the values is at least `t` exactly when every value is. */
  lemma MinAtLeast(scores: Scores, t: real)
    requires scores != map[]
    ensures Read(scores).lo >= t <==> AllAtLeast(scores, t)
  {
    var lo := Read(scores).lo;
    if AllAtLeast(scores, t) {
      ValuesAreScores(scores, lo);
    }
  }

  /** The maximum of the values is below `t` exactly when every value is. */
  lemma MaxBelow(scores: Scores, t: real)
    requires scores != map[]
    ensures Read(scores).hi < t <==> AllBelow(scores, t)
  {
    var hi := Read(scores).hi;
    if AllBelow(scores, t) {
      ValuesAreScores(scores, hi);
    }
  }

  /** Each guard read over the scores is the source's test over min, max and the six reads. */
  lemma GuardsAreFires(scores: Scores, a: Archetype)
    requires scores != map[]
    ensures Guard(a, scores) <==> Fires(a, Read(scores))
  {
    MinAtLeast(scores, 4.0);
    MaxBelow(scores, 2.5);
  }

  lemma DecideFirstMatch(r: Reading, a: Archetype)
    ensures Decide(r) == a <==> Fires(a, r) && forall b :: Rank(b) < Rank(a) ==> !Fires(b, r)
  {
  }

  lemma FirstToFireAgree(scores: Scores, r: Reading, a: Archetype)
    requires forall b :: Guard(b, scores) <==> Fires(b, r)
    ensures FirstToFire(a, scores) <==> Fires(a, r) && forall b :: Rank(b) < Rank(a) ==> !Fires(b, r)
  {
  }

  /**
   * First match wins: Classify returns `a` exactly when the rule of `a` fires
   * and no rule tried before it fires.
   */
  lemma FirstMatchWins(scores: Scores, a: Archetype)
    requires scores != map[]
    ensures Classify(scores) == Some(a) <==> FirstToFire(a, scores)
  {
    ReadBridge(scores);
    var r := Read(scores);
    forall b ensures Guard(b, scores) <==> Fires(b, r) {
      GuardsAreFires(scores, b);
    }
    FirstToFireAgree(scores, r, a);
    DecideFirstMatch(r, a);
  }

  // ---------------------------------------------------------------------
  // Consequences of the rule order. Each is proved first over a Reading,
  // where it is a statement about the chain of tests alone, and then carried
  // over to the dictionary through ReadBridge.
  // ---------------------------------------------------------------------

  /** Every category of the quiz has a score. */
  ghost predicate Complete(scores: Scores) {
    forall c :: c in scores
  }

  /** Neither the all-high rule nor the burnout rule fires. */
  ghost predicate Ordinary(scores: Scores) {
    scores != map[] && !AllAtLeast(scores, 4.0) && Get(scores, Vitality) >= 3.0
  }

  /** Some compound (two- or three-category) rule's guard holds. */
  ghost predicate CompoundHolds(scores: Scores) {
    Guard(Leader, scores) || Guard(Architect, scores) ||
    Guard(Performer, scores) || Guard(Strategist, scores)
  }

  predicate IsCompound(a: Archetype) {
    a.Leader? || a.Architect? || a.Performer? || a.Strategist?
  }

  /** The archetype of the single-category rule for `c`. */
  function SingleOf(c: Category): (a: Archetype)
    ensures 6 <= Rank(a) <= 11
    ensures Rank(a) == 11 <==> c == Connection
  {
    match c
    case Philosophy => Sage
    case Environment => Guardian
    case Talent => Craftsman
    case Vision => Dreamer
    case Vitality => Adventurer
    case Connection => Lover
  }

  /** The score of `c` as the classifier reads it. */
  function Field(r: Reading, c: Category): real {
    match c
    case Philosophy => r.phi
    case Environment => r.env
    case Talent => r.tal
    case Vision => r.des
    case Vitality => r.vit
    case Connection => r.con
  }

  /**
   * What Classify decides from: the six reads are the dictionary's scores
   * with their default, the minimum test is the all-high test, and the
   * burnout test is the Vitality test alone.
   */
  lemma ReadBridge(scores: Scores)
    requires scores != map[]
    ensures Classify(scores) == Some(Decide(Read(scores)))
    ensures forall c :: Field(Read(scores), c) == Get(scores, c)
    ensures Read(scores).lo >= 4.0 <==> AllAtLeast(scores, 4.0)
    ensures (Read(scores).vit < 3.0 || Read(scores).hi < 2.5) <==> Read(scores).vit < 3.0
  {
    MinAtLeast(scores, 4.0);
    BurnoutMaxRedundant(scores);
    forall c ensures Field(Read(scores), c) == Get(scores, c) {
      FieldIsGet(scores, c);
    }
  }

  lemma FieldIsGet(scores: Scores, c: Category)
    requires scores != map[]
    ensures Field(Read(scores), c) == Get(scores, c)
  {
    match c
    case Philosophy =>
    case Environment =>
    case Talent =>
    case Vision =>
    case Vitality =>
    case Connection =>
  }

  /** All six scores at 4.0 or more give Type 5, whatever the other rules say. */
  lemma SovereignIff(scores: Scores)
    ensures Classify(scores) == Some(Sovereign) <==> scores != map[] && AllAtLeast(scores, 4.0)
  {
    if scores != map[] {
      ReadBridge(scores);
      DecideFirstMatch(Read(scores), Sovereign);
    }
  }

  /**
   * The `max_score < 2.5` half of the burnout test never decides anything:
   * when it holds, Vitality is either missing (and read as 0) or at most the
   * maximum, so `vit < 3.0` holds as well.
   */
  lemma BurnoutMaxRedundant(scores: Scores)
    requires scores != map[]
    ensures (Read(scores).vit < 3.0 || Read(scores).hi < 2.5) <==> Read(scores).vit < 3.0
  {
    var r := Read(scores);
    if r.hi < 2.5 && Vitality in scores {
      assert scores[Vitality] in Values(scores);
      assert r.vit == scores[Vitality] <= r.hi;
    }
  }

  /** Type 1 is returned exactly when not all scores are high and Vitality is below 3.0. */
  lemma WoundedWarriorIff(scores: Scores)
    ensures Classify(scores) == Some(WoundedWarrior) <==>
              scores != map[] && !AllAtLeast(scores, 4.0) && Get(scores, Vitality) < 3.0
  {
    if scores != map[] {
      ReadBridge(scores);
      assert Field(Read(scores), Vitality) == Get(scores, Vitality);
    }
  }

  /** The first compound rule: Connection, Vision and enough Vitality give Type 9. */
  lemma LeaderIff(scores: Scores)
    ensures Classify(scores) == Some(Leader) <==>
              scores != map[] && !AllAtLeast(scores, 4.0) &&
              Get(scores, Connection) >= 4.0 && Get(scores, Vision) >= 4.0 &&
              Get(scores, Vitality) >= 3.5
  {
    if scores != map[] {
      ReadBridge(scores);
      var r := Read(scores);
      assert Field(r, Connection) == Get(scores, Connection);
      assert Field(r, Vision) == Get(scores, Vision);
      assert Field(r, Vitality) == Get(scores, Vitality);
    }
  }

  lemma DecideLeaderSkipped(r: Reading)
    requires r.lo < 4.0 && r.hi >= 2.5 && r.con >= 4.0 && r.des >= 4.0 && 3.0 <= r.vit < 3.5
    ensures Decide(r) == if r.tal >= 4.0 then Architect
                         else if r.phi >= 4.0 then Strategist
                         else if r.env >= 4.0 then Guardian
                         else Dreamer
  {
  }

  /**
   * With Connection and Vision high but Vitality in [3.0, 3.5), Type 9 is
   * skipped and the later rules decide.
   */
  lemma LeaderSkippedOnLowVitality(scores: Scores)
    requires scores != map[] && !AllAtLeast(scores, 4.0)
    requires Get(scores, Connection) >= 4.0 && Get(scores, Vision) >= 4.0
    requires 3.0 <= Get(scores, Vitality) < 3.5
    ensures Classify(scores) ==
              Some(if Get(scores, Talent) >= 4.0 then Architect
                   else if Get(scores, Philosophy) >= 4.0 then Strategist
                   else if Get(scores, Environment) >= 4.0 then Guardian
                   else Dreamer)
  {
    ReadBridge(scores);
    var r := Read(scores);
    assert Field(r, Connection) == Get(scores, Connection);
    assert Field(r, Vision) == Get(scores, Vision);
    assert Field(r, Vitality) == Get(scores, Vitality);
    assert Field(r, Talent) == Get(scores, Talent);
    assert Field(r, Philosophy) == Get(scores, Philosophy);
    assert Field(r, Environment) == Get(scores, Environment);
    DecideLeaderSkipped(r);
  }

  lemma DecideCompoundIff(r: Reading)
    ensures IsCompound(Decide(r)) <==> OrdinaryReading(r) && CompoundFires(r)
  {
  }

  /**
   * A compound archetype is returned exactly when the first two rules do not
   * fire and some compound guard holds; so a satisfied compound rule beats
   * every single-category rule.
   */
  lemma CompoundIff(scores: Scores)
    requires scores != map[]
    ensures IsCompound(Classify(scores).value) <==> Ordinary(scores) && CompoundHolds(scores)
  {
    ReadBridge(scores);
    var r := Read(scores);
    assert Ordinary(scores) <==> OrdinaryReading(r) by {
      assert Field(r, Vitality) == Get(scores, Vitality);
    }
    assert CompoundHolds(scores) <==> CompoundFires(r) by {
      GuardsAreFires(scores, Leader);
      GuardsAreFires(scores, Architect);
      GuardsAreFires(scores, Performer);
      GuardsAreFires(scores, Strategist);
    }
    DecideCompoundIff(r);
  }

  lemma DecidePhilosophyAndVision(r: Reading)
    requires r.lo < 4.0 && r.vit >= 3.0 && r.hi >= 2.5 && r.phi >= 4.0 && r.des >= 4.0
    ensures Decide(r) == if r.con >= 4.0 && r.vit >= 3.5 then Leader
                         else if r.tal >= 4.0 then Architect
                         else Strategist
  {
  }

  /** High Philosophy and Vision never give Type 4: a compound rule takes them first. */
  lemma PhilosophyAndVisionIsCompound(scores: Scores)
    requires Ordinary(scores)
    requires Get(scores, Philosophy) >= 4.0 && Get(scores, Vision) >= 4.0
    ensures Classify(scores) ==
              Some(if Get(scores, Connection) >= 4.0 && Get(scores, Vitality) >= 3.5 then Leader
                   else if Get(scores, Talent) >= 4.0 then Architect
                   else Strategist)
  {
    ReadBridge(scores);
    var r := Read(scores);
    assert Field(r, Connection) == Get(scores, Connection);
    assert Field(r, Vision) == Get(scores, Vision);
    assert Field(r, Vitality) == Get(scores, Vitality);
    assert Field(r, Talent) == Get(scores, Talent);
    assert Field(r, Philosophy) == Get(scores, Philosophy);
    DecidePhilosophyAndVision(r);
  }

  /** No earlier rule fires on the reading. */
  predicate OrdinaryReading(r: Reading) {
    r.lo < 4.0 && r.vit >= 3.0 && r.hi >= 2.5
  }

  predicate CompoundFires(r: Reading) {
    Fires(Leader, r) || Fires(Architect, r) || Fires(Performer, r) || Fires(Strategist, r)
  }

  lemma DecideSingleIff(r: Reading, c: Category)
    ensures Decide(r) == SingleOf(c) <==>
              OrdinaryReading(r) && !CompoundFires(r) && Field(r, c) >= 4.0 &&
              forall d :: Rank(SingleOf(d)) < Rank(SingleOf(c)) ==> Field(r, d) < 4.0
  {
    var before := forall d :: Rank(SingleOf(d)) < Rank(SingleOf(c)) ==> Field(r, d) < 4.0;
    assert before <==> match c
      case Philosophy => true
      case Environment => r.phi < 4.0
      case Talent => r.phi < 4.0 && r.env < 4.0
      case Vision => r.phi < 4.0 && r.env < 4.0 && r.tal < 4.0
      case Vitality => r.phi < 4.0 && r.env < 4.0 && r.tal < 4.0 && r.des < 4.0
      case Connection => r.phi < 4.0 && r.env < 4.0 && r.tal < 4.0 && r.des < 4.0 && r.vit < 4.0
    by {
      if before {
        assert Field(r, Philosophy) == r.phi && Field(r, Environment) == r.env;
        assert Field(r, Talent) == r.tal && Field(r, Vision) == r.des;
        assert Field(r, Vitality) == r.vit;
      }
    }
  }

  /**
   * The single-category rule for `c` decides exactly when no earlier rule
   * fires, `c` is high, and every category tried before `c` is not.
   */
  lemma SingleIff(scores: Scores, c: Category)
    requires scores != map[]
    ensures Classify(scores) == Some(SingleOf(c)) <==>
              Ordinary(scores) && !CompoundHolds(scores) && Get(scores, c) >= 4.0 &&
              forall d :: Rank(SingleOf(d)) < Rank(SingleOf(c)) ==> Get(scores, d) < 4.0
  {
    ReadBridge(scores);
    var r := Read(scores);
    assert Ordinary(scores) <==> OrdinaryReading(r) by {
      assert Field(r, Vitality) == Get(scores, Vitality);
    }
    assert CompoundHolds(scores) <==> CompoundFires(r) by {
      GuardsAreFires(scores, Leader);
      GuardsAreFires(scores, Architect);
      GuardsAreFires(scores, Performer);
      GuardsAreFires(scores, Strategist);
    }
    EarlierSinglesAgree(scores, r, c);
    assert Get(scores, c) == Field(r, c);
    DecideSingleIff(r, c);
  }

  lemma EarlierSinglesAgree(scores: Scores, r: Reading, c: Category)
    requires forall d :: Field(r, d) == Get(scores, d)
    ensures (forall d :: Rank(SingleOf(d)) < Rank(SingleOf(c)) ==> Get(scores, d) < 4.0) <==>
            (forall d :: Rank(SingleOf(d)) < Rank(SingleOf(c)) ==> Field(r, d) < 4.0)
  {
  }

  /** Type 11 comes last among the single rules: every other category is below 4.0. */
  lemma LoverMeansOthersBelow(scores: Scores)
    requires Classify(scores) == Some(Lover)
    ensures forall c :: c != Connection ==> Get(scores, c) < 4.0
  {
    SingleIff(scores, Connection);
    forall c | c != Connection ensures Get(scores, c) < 4.0 {
      assert Rank(SingleOf(c)) < Rank(SingleOf(Connection));
    }
  }

  lemma DecideCitizenIff(r: Reading)
    ensures Decide(r) == Citizen <==>
              OrdinaryReading(r) && forall c :: Field(r, c) < 4.0
  {
    var low := forall c :: Field(r, c) < 4.0;
    var each := r.phi < 4.0 && r.env < 4.0 && r.tal < 4.0 && r.des < 4.0 && r.vit < 4.0 && r.con < 4.0;
    if low {
      assert Field(r, Philosophy) < 4.0 && Field(r, Environment) < 4.0 && Field(r, Talent) < 4.0;
      assert Field(r, Vision) < 4.0 && Field(r, Vitality) < 4.0 && Field(r, Connection) < 4.0;
    }
    if each {
      forall c ensures Field(r, c) < 4.0 {
        match c
        case Philosophy =>
        case Environment =>
        case Talent =>
        case Vision =>
        case Vitality =>
        case Connection =>
      }
    }
  }

  /**
   * The default Type 3 is returned exactly when Vitality is at least 3.0 and
   * no category reaches 4.0.
   */
  lemma CitizenIff(scores: Scores)
    ensures Classify(scores) == Some(Citizen) <==>
              Get(scores, Vitality) >= 3.0 && forall c :: Get(scores, c) < 4.0
  {
    if scores != map[] {
      ReadBridge(scores);
      var r := Read(scores);
      DecideCitizenIff(r);
      assert (forall c :: Get(scores, c) < 4.0) <==> (forall c :: Field(r, c) < 4.0);
      if Get(scores, Vitality) >= 3.0 && forall c :: Get(scores, c) < 4.0 {
        assert Vitality in scores;
        assert !AllAtLeast(scores, 4.0);
        assert Field(r, Vitality) == Get(scores, Vitality);
      }
    }
  }

  // ---------------------------------------------------------------------
  // No rule of the table is dead: each archetype is returned for some
  // complete dictionary.
  // ---------------------------------------------------------------------

  /** The score category `c` gets in the dictionary that leads to `a`. */
  function WitnessScore(a: Archetype, c: Category): real {
    match a
    case Sovereign => 4.0
    case WoundedWarrior => 1.0
    case Leader => if c == Connection || c == Vision then 4.0 else if c == Vitality then 3.5 else 3.0
    case Architect => if c == Talent || c == Vision then 4.0 else 3.0
    case Performer => if c == Talent || c == Connection then 4.0 else 3.0
    case Strategist => if c == Philosophy || c == Vision then 4.0 else 3.0
    case Citizen => 3.0
    case _ => if a == SingleOf(c) then 4.0 else 3.0
  }

  function Witness(a: Archetype): (scores: Scores)
    ensures Complete(scores)
  {
    map c | c in Order() :: WitnessScore(a, c)
  }

  lemma DecideWitness(a: Archetype, r: Reading)
    requires r.phi == WitnessScore(a, Philosophy) && r.env == WitnessScore(a, Environment)
    requires r.tal == WitnessScore(a, Talent) && r.des == WitnessScore(a, Vision)
    requires r.vit == WitnessScore(a, Vitality) && r.con == WitnessScore(a, Connection)
    requires r.lo >= 4.0 <==> a == Sovereign
    requires (r.vit < 3.0 || r.hi < 2.5) <==> r.vit < 3.0
    ensures Decide(r) == a
  {
    match a
    case Sovereign =>
    case WoundedWarrior =>
    case Leader =>
    case Architect =>
    case Performer =>
    case Strategist =>
    case Citizen =>
    case Sage =>
    case Guardian =>
    case Craftsman =>
    case Dreamer =>
    case Adventurer =>
    case Lover =>
  }

  /** What the witness dictionary for `a` holds, stated without reading it through Read. */
  lemma WitnessContents(a: Archetype)
    ensures Witness(a) != map[]
    ensures forall c :: Get(Witness(a), c) == WitnessScore(a, c)
    ensures AllAtLeast(Witness(a), 4.0) <==> a == Sovereign
  {
    var w := Witness(a);
    assert Philosophy in w;
    if a != Sovereign {
      assert w[Environment] < 4.0 || w[Philosophy] < 4.0;
    }
  }

  /** Every one of the thirteen archetypes is the result for some complete dictionary. */
  lemma EveryArchetypeReachable(a: Archetype)
    ensures Classify(Witness(a)) == Some(a)
  {
    WitnessContents(a);
    ReadBridge(Witness(a));
    var r := Read(Witness(a));
    assert r.phi == Field(r, Philosophy) && r.env == Field(r, Environment);
    assert r.tal == Field(r, Talent) && r.des == Field(r, Vision);
    assert r.vit == Field(r, Vitality) && r.con == Field(r, Connection);
    DecideWitness(a, r);
  }

  /** The dictionary of the worked example below. */
  function Example(): Scores {
    map[Philosophy := 4.5, Environment := 2.0, Talent := 4.2,
        Vision := 4.3, Vitality := 3.8, Connection := 3.0]
  }

  lemma ExampleContents()
    ensures Example() != map[] && !AllAtLeast(Example(), 4.0)
    ensures Get(Example(), Talent) == 4.2 && Get(Example(), Vision) == 4.3
    ensures Get(Example(), Vitality) == 3.8 && Get(Example(), Connection) == 3.0
  {
    assert Example()[Environment] < 4.0;
  }

  /**
   * A worked example: Philosophy 4.5, Environment 2.0, Talent 4.2, Vision
   * 4.3, Vitality 3.8 and Connection 3.0 give Type 13, because the Talent
   * and Vision rule comes before the Philosophy and Vision rule.
   */
  lemma ArchitectExample()
    ensures Classify(Example()) == Some(Architect)
  {
    ExampleContents();
    ReadBridge(Example());
    var r := Read(Example());
    assert r.tal == Field(r, Talent) && r.des == Field(r, Vision);
    assert r.vit == Field(r, Vitality) && r.con == Field(r, Connection);
  }
}
