/** The rule-based constitution ("dosha") engine of the analyze route: the classifier
    that scores a trait selection against three fixed templates and ranks the doshas,
    and the composer that turns the ranking into a recommendation bundle. */
module Prakriti {
  import opened Records

  // ---------------------------------------------------------------------------
  // Doshas and their trait templates
  // ---------------------------------------------------------------------------

  datatype Dosha = Vata | Pitta | Kapha

  /** Position of a dosha in the score array; ties in the ranking keep this order. */
  function Ord(d: Dosha): nat
  {
    match d
    case Vata => 0
    case Pitta => 1
    case Kapha => 2
  }

  function DoshaAt(i: nat): Dosha
    requires i < 3
  {
    [Vata, Pitta, Kapha][i]
  }

  function Name(d: Dosha): string
  {
    match d
    case Vata => "Vata"
    case Pitta => "Pitta"
    case Kapha => "Kapha"
  }

  /** The dosha a name denotes, if it denotes one: the inverse of Name. */
  function DoshaNamed(s: string): (r: Option<Dosha>)
    ensures forall d :: r == Some(d) <==> Name(d) == s
  {
    if s == "Vata" then Some(Vata)
    else if s == "Pitta" then Some(Pitta)
    else if s == "Kapha" then Some(Kapha)
    else None
  }

  /** The eleven trait keys, in the order the templates declare them. */
  const TraitKeys: seq<string> := [
    "skin", "bodyBuild", "hair", "mindset", "memory", "emotions",
    "diet", "sleep", "energy", "weatherPreference", "stressResponse"
  ]

  /** The canonical value of every trait key for each dosha. */
  function Template(d: Dosha): map<string, string>
  {
    match d
    case Vata => VataTraits
    case Pitta => PittaTraits
    case Kapha => KaphaTraits
  }

  const VataTraits: map<string, string> := map[
    "skin" := "Dry", "bodyBuild" := "Thin", "hair" := "Dry, thin",
    "mindset" := "Restless", "memory" := "Forgetful", "emotions" := "Anxious",
    "diet" := "Warm, dry food", "sleep" := "Light", "energy" := "Variable",
    "weatherPreference" := "Warm", "stressResponse" := "Anxious"]

  const PittaTraits: map<string, string> := map[
    "skin" := "Oily", "bodyBuild" := "Muscular", "hair" := "Oily, thinning",
    "mindset" := "Intense", "memory" := "Sharp", "emotions" := "Angry",
    "diet" := "Cold, spicy", "sleep" := "Moderate", "energy" := "High, bursts",
    "weatherPreference" := "Cool", "stressResponse" := "Irritable"]

  const KaphaTraits: map<string, string> := map[
    "skin" := "Balanced", "bodyBuild" := "Heavier", "hair" := "Thick, oily",
    "mindset" := "Calm", "memory" := "Slow but long-term", "emotions" := "Content",
    "diet" := "Light, sweet", "sleep" := "Deep", "energy" := "Steady",
    "weatherPreference" := "Warm and dry", "stressResponse" := "Calm"]

  /** traits[key] === template[key]: a key the template lacks reads undefined and
      never equals a string. */
  predicate Matches(f: Field, d: Dosha)
  {
    f.key in Template(d) && Template(d)[f.key] == f.value
  }

  /** Each template is defined on exactly the eleven trait keys. */
  lemma TemplateKeys(d: Dosha)
    ensures |TraitKeys| == 11
    ensures forall k :: k in Template(d) <==> k in TraitKeys
  {
    forall i | 0 <= i < |TraitKeys| ensures TraitKeys[i] in Template(d) {
    }
    forall k | k in Template(d) ensures k in TraitKeys {
    }
  }

  /** The selection that equals the template of d on all eleven keys. */
  function TemplateTraits(d: Dosha): (t: Object)
    ensures |t| == 11
  {
    seq(11, i requires 0 <= i < 11 => Field(TraitKeys[i], Template(d)[TraitKeys[i]]))
  }

  /** How many templates a single trait value matches. */
  function Hits(f: Field): nat
  {
    (if Matches(f, Vata) then 1 else 0)
    + (if Matches(f, Pitta) then 1 else 0)
    + (if Matches(f, Kapha) then 1 else 0)
  }

  /** For every key the three template values differ, so a value matches at most one
      template. */
  lemma AtMostOneTemplate(f: Field)
    ensures Hits(f) <= 1
    ensures forall d, e :: Matches(f, d) && Matches(f, e) ==> d == e
  {
    var k := f.key;
    if k in Template(Vata) {
      assert k in TraitKeys;
      assert Template(Vata)[k] != Template(Pitta)[k];
      assert Template(Vata)[k] != Template(Kapha)[k];
      assert Template(Pitta)[k] != Template(Kapha)[k];
    }
  }

  // ---------------------------------------------------------------------------
  // Scores
  // ---------------------------------------------------------------------------

  /** The number of trait entries whose value equals the template of d. */
  function Score(t: Object, d: Dosha): (n: nat)
    ensures n <= |t|
  {
    if t == [] then 0
    else Score(t[..|t| - 1], d) + (if Matches(t[|t| - 1], d) then 1 else 0)
  }

  /** Extending the scanned prefix by one entry adds that entry's match to each score. */
  lemma ScoreStep(t: Object, i: nat)
    requires i < |t|
    ensures forall d :: Score(t[..i + 1], d) == Score(t[..i], d) + (if Matches(t[i], d) then 1 else 0)
  {
    assert t[..i + 1][..i] == t[..i];
  }

  /** An entry whose key the template lacks never matches: traits[key] is compared with
      undefined. Adding such entries leaves the score unchanged. */
  lemma {:induction false} UnknownKeysAddNothing(t: Object, extra: Object, d: Dosha)
    requires forall i :: 0 <= i < |extra| ==> extra[i].key !in Template(d)
    ensures Score(t + extra, d) == Score(t, d)
    ensures Score(extra, d) == 0
    decreases |extra|
  {
    if extra == [] {
      assert t + extra == t;
    } else {
      var e := extra[..|extra| - 1];
      assert (t + extra)[..|t + extra| - 1] == t + e;
      assert (t + extra)[|t + extra| - 1] == extra[|extra| - 1];
      assert !Matches(extra[|extra| - 1], d);
      UnknownKeysAddNothing(t, e, d);
      UnknownKeysAddNothing([], e, d);
      assert [] + extra == extra;
    }
  }

  /** Since a value matches at most one template, the three scores together never
      exceed the number of trait entries. */
  lemma {:induction false} ScoreSumBound(t: Object)
    ensures Score(t, Vata) + Score(t, Pitta) + Score(t, Kapha) <= |t|
  {
    if t != [] {
      ScoreSumBound(t[..|t| - 1]);
      AtMostOneTemplate(t[|t| - 1]);
    }
  }

  /** The value is one of the three template values for its key. */
  predicate Recognized(f: Field)
  {
    Matches(f, Vata) || Matches(f, Pitta) || Matches(f, Kapha)
  }

  /** When every value matches some template, the three scores add up to exactly the
      number of trait entries. */
  lemma {:induction false} ScoreSumExact(t: Object)
    requires forall i :: 0 <= i < |t| ==> Recognized(t[i])
    ensures Score(t, Vata) + Score(t, Pitta) + Score(t, Kapha) == |t|
  {
    if t != [] {
      var s := t[..|t| - 1];
      forall i | 0 <= i < |s| ensures Recognized(s[i]) {
        assert s[i] == t[i];
      }
      ScoreSumExact(s);
      AtMostOneTemplate(t[|t| - 1]);
    }
  }

  /** A selection whose every value is d's scores |t| for d and nothing for the others. */
  lemma {:induction false} ScoresOfPureSelection(t: Object, d: Dosha)
    requires forall i :: 0 <= i < |t| ==> Matches(t[i], d)
    ensures Score(t, d) == |t|
    ensures forall e :: e != d ==> Score(t, e) == 0
  {
    if t != [] {
      var s := t[..|t| - 1];
      assert forall i :: 0 <= i < |s| ==> s[i] == t[i];
      ScoresOfPureSelection(s, d);
      AtMostOneTemplate(t[|t| - 1]);
    }
  }

  // ---------------------------------------------------------------------------
  // Ranking: a stable sort by descending score
  // ---------------------------------------------------------------------------

  datatype Ranked = Ranked(dosha: Dosha, score: nat)

  /** x comes before y in a stable descending sort of entries given in declaration
      order: a higher score first, an equal score in declaration order. */
  predicate Precedes(x: Ranked, y: Ranked)
  {
    x.score > y.score || (x.score == y.score && Ord(x.dosha) < Ord(y.dosha))
  }

  predicate RankedOrder(s: seq<Ranked>)
  {
    forall i, j :: 0 <= i < j < |s| ==> Precedes(s[i], s[j])
  }

  predicate InDeclarationOrder(s: seq<Ranked>)
  {
    forall i, j :: 0 <= i < j < |s| ==> Ord(s[i].dosha) < Ord(s[j].dosha)
  }

  /** Places x in front of the first entry that does not beat it: the comparator
      b.score - a.score is zero on ties and a stable sort keeps the earlier entry first. */
  function Insert(x: Ranked, l: seq<Ranked>): (r: seq<Ranked>)
    ensures |r| == |l| + 1
    ensures multiset(r) == multiset(l) + multiset{x}
  {
    if l == [] || x.score >= l[0].score then [x] + l
    else
      assert l == [l[0]] + l[1..];
      [l[0]] + Insert(x, l[1..])
  }

  /** The comparator sort (a, b) => b.score - a.score as an insertion sort. */
  function SortByScore(s: seq<Ranked>): (r: seq<Ranked>)
    ensures |r| == |s|
    ensures multiset(r) == multiset(s)
  {
    if s == [] then []
    else
      assert s == [s[0]] + s[1..];
      Insert(s[0], SortByScore(s[1..]))
  }

  lemma {:induction false} InsertRanked(x: Ranked, l: seq<Ranked>)
    requires RankedOrder(l)
    requires forall y :: y in l ==> Ord(x.dosha) < Ord(y.dosha)
    ensures RankedOrder(Insert(x, l))
  {
    if l == [] || x.score >= l[0].score {
      var r := [x] + l;
      forall j | 0 < j < |r| ensures Precedes(r[0], r[j]) {
        assert r[j] == l[j - 1] && l[j - 1] in l;
        if j > 1 { assert Precedes(l[0], l[j - 1]); }
      }
    } else {
      InsertRanked(x, l[1..]);
      var t := Insert(x, l[1..]);
      forall y | y in t ensures Precedes(l[0], y) {
        assert y in multiset(t);
        if y != x {
          assert y in multiset(l[1..]);
          var j :| 0 <= j < |l[1..]| && l[1..][j] == y;
          assert Precedes(l[0], l[j + 1]);
        }
      }
    }
  }

  /** The insertion sort is a stable descending sort: its result is a permutation of
      the input, scores never increase, and equal scores keep declaration order. */
  lemma {:induction false} SortIsStableDescending(s: seq<Ranked>)
    requires InDeclarationOrder(s)
    ensures multiset(SortByScore(s)) == multiset(s)
    ensures RankedOrder(SortByScore(s))
  {
    if s != [] {
      var rest := s[1..];
      SortIsStableDescending(rest);
      forall y | y in SortByScore(rest) ensures Ord(s[0].dosha) < Ord(y.dosha) {
        assert y in multiset(SortByScore(rest));
        var j :| 0 <= j < |rest| && rest[j] == y;
        assert s[j + 1] == y;
      }
      InsertRanked(s[0], SortByScore(rest));
    }
  }

  lemma TailRanked(s: seq<Ranked>)
    requires s != [] && RankedOrder(s)
    ensures RankedOrder(s[1..])
  {
    forall i, j | 0 <= i < j < |s| - 1 ensures Precedes(s[1..][i], s[1..][j]) {
      assert s[1..][i] == s[i + 1] && s[1..][j] == s[j + 1];
    }
  }

  /** Two ranked arrangements of the same entries start with the same entry. */
  lemma SameHead(a: seq<Ranked>, b: seq<Ranked>)
    requires a != [] && multiset(a) == multiset(b)
    requires RankedOrder(a) && RankedOrder(b)
    ensures b != [] && a[0] == b[0]
  {
    var x := a[0];
    assert x in multiset(b);
    var y := b[0];
    assert y in multiset(a);
    var i :| 0 <= i < |a| && a[i] == y;
    var j :| 0 <= j < |b| && b[j] == x;
    assert i == 0 || Precedes(x, y);
    assert j == 0 || Precedes(y, x);
  }

  lemma TailMultiset(a: seq<Ranked>)
    requires a != []
    ensures multiset(a[1..]) == multiset(a) - multiset{a[0]}
  {
    assert a == [a[0]] + a[1..];
  }

  /** There is only one stable descending arrangement of a given collection of entries,
      so any stable sort with this comparator (as ECMA-262 requires of
      Array.prototype.sort) agrees with SortByScore. */
  lemma {:induction false} RankedOrderUnique(a: seq<Ranked>, b: seq<Ranked>)
    requires multiset(a) == multiset(b)
    requires RankedOrder(a) && RankedOrder(b)
    ensures a == b
  {
    if a != [] {
      SameHead(a, b);
      TailMultiset(a);
      TailMultiset(b);
      TailRanked(a);
      TailRanked(b);
      RankedOrderUnique(a[1..], b[1..]);
      assert a == [a[0]] + a[1..];
      assert b == [b[0]] + b[1..];
    }
  }

  // ---------------------------------------------------------------------------
  // Classification
  // ---------------------------------------------------------------------------

  /** The classifier's result: the primary dosha's name and the secondary's, or null. */
  datatype Prakriti = Prakriti(primary: string, secondary: Option<string>)

  /** The score of d among the three counters. */
  function ScoreOf(v: nat, p: nat, k: nat, d: Dosha): nat
  {
    match d
    case Vata => v
    case Pitta => p
    case Kapha => k
  }

  /** The score array [Vata, Pitta, Kapha], sorted. */
  function Rank(v: nat, p: nat, k: nat): (r: seq<Ranked>)
    ensures |r| == 3
  {
    SortByScore([Ranked(Vata, v), Ranked(Pitta, p), Ranked(Kapha, k)])
  }

  /** primary: the first entry; secondary: the second one if it scored, else null. */
  function Pick(r: seq<Ranked>): Prakriti
    requires |r| >= 2
  {
    Prakriti(Name(r[0].dosha), if r[1].score > 0 then Some(Name(r[1].dosha)) else None)
  }

  function Classify(t: Object): Prakriti
  {
    Pick(Rank(Score(t, Vata), Score(t, Pitta), Score(t, Kapha)))
  }

  /** The sorted array holds each dosha exactly once, with its own score. */
  lemma RankFacts(v: nat, p: nat, k: nat)
    ensures var r := Rank(v, p, k);
      && RankedOrder(r)
      && r[0].score == ScoreOf(v, p, k, r[0].dosha)
      && r[1].score == ScoreOf(v, p, k, r[1].dosha)
      && r[2].score == ScoreOf(v, p, k, r[2].dosha)
      && r[0].dosha != r[1].dosha && r[0].dosha != r[2].dosha && r[1].dosha != r[2].dosha
  {
    var s := [Ranked(Vata, v), Ranked(Pitta, p), Ranked(Kapha, k)];
    var r := SortByScore(s);
    assert InDeclarationOrder(s);
    SortIsStableDescending(s);
    forall i | 0 <= i < 3 ensures r[i].score == ScoreOf(v, p, k, r[i].dosha) {
      assert r[i] in multiset(s);
      assert r[i] in s;
    }
    assert Precedes(r[0], r[1]) && Precedes(r[0], r[2]) && Precedes(r[1], r[2]);
  }

  /** The classifier's result read off the sorted array: primary names its first entry,
      secondary its second one exactly when that one scored. */
  lemma ClassifyRanked(t: Object) returns (r: seq<Ranked>)
    ensures |r| == 3 && RankedOrder(r)
    ensures forall i :: 0 <= i < 3 ==> r[i].score == Score(t, r[i].dosha)
    ensures r[0].dosha != r[1].dosha && r[0].dosha != r[2].dosha && r[1].dosha != r[2].dosha
    ensures DoshaNamed(Classify(t).primary) == Some(r[0].dosha)
    ensures Classify(t).secondary.None? <==> r[1].score == 0
    ensures Classify(t).secondary.Some? ==> DoshaNamed(Classify(t).secondary.value) == Some(r[1].dosha)
  {
    var v, p, k := Score(t, Vata), Score(t, Pitta), Score(t, Kapha);
    r := Rank(v, p, k);
    RankFacts(v, p, k);
    ScoreOfScores(t, r[0].dosha);
    ScoreOfScores(t, r[1].dosha);
    ScoreOfScores(t, r[2].dosha);
    PickNames(r);
    assert Classify(t) == Pick(r);
  }

  lemma ScoreOfScores(t: Object, d: Dosha)
    ensures ScoreOf(Score(t, Vata), Score(t, Pitta), Score(t, Kapha), d) == Score(t, d)
  {
  }

  /** The pick reports the names of the first two entries, the second only if it scored. */
  lemma PickNames(r: seq<Ranked>)
    requires |r| >= 2
    ensures DoshaNamed(Pick(r).primary) == Some(r[0].dosha)
    ensures Pick(r).secondary.None? <==> r[1].score == 0
    ensures Pick(r).secondary.Some? ==> DoshaNamed(Pick(r).secondary.value) == Some(r[1].dosha)
  {
    assert DoshaNamed(Name(r[0].dosha)) == Some(r[0].dosha);
    assert DoshaNamed(Name(r[1].dosha)) == Some(r[1].dosha);
  }

  /** Primary has the top score; among doshas sharing it, primary is declared first. */
  lemma PrimaryIsFirstTopScorer(t: Object, d: Dosha)
    ensures DoshaNamed(Classify(t).primary).Some?
    ensures var p := DoshaNamed(Classify(t).primary).value;
      && Score(t, d) <= Score(t, p)
      && (Score(t, d) == Score(t, p) ==> Ord(p) <= Ord(d))
  {
    var r := ClassifyRanked(t);
    assert Precedes(r[0], r[1]) && Precedes(r[0], r[2]);
    assert r[0].score == Score(t, r[0].dosha);
    assert r[1].score == Score(t, r[1].dosha);
    assert r[2].score == Score(t, r[2].dosha);
  }

  /** Secondary is null exactly when the runner-up scores zero, i.e. when no dosha other
      than primary matched anything; otherwise it is the runner-up: different from
      primary, scoring no more than primary, and the first-declared best of the rest. */
  lemma SecondaryIsRunnerUp(t: Object, d: Dosha)
    ensures DoshaNamed(Classify(t).primary).Some?
    ensures var c := Classify(t); var p := DoshaNamed(c.primary).value;
      c.secondary.None? <==> forall e :: e != p ==> Score(t, e) == 0
    ensures var c := Classify(t); var p := DoshaNamed(c.primary).value;
      c.secondary.Some? ==>
        var q := DoshaNamed(c.secondary.value);
        && q.Some? && q.value != p
        && 0 < Score(t, q.value) <= Score(t, p)
        && (d != p ==> Score(t, d) <= Score(t, q.value))
        && (d != p && Score(t, d) == Score(t, q.value) ==> Ord(q.value) <= Ord(d))
  {
    var r := ClassifyRanked(t);
    assert Precedes(r[0], r[1]) && Precedes(r[0], r[2]) && Precedes(r[1], r[2]);
    assert r[0].score == Score(t, r[0].dosha);
    assert r[1].score == Score(t, r[1].dosha);
    assert r[2].score == Score(t, r[2].dosha);
    if Classify(t).secondary.None? {
      forall e | e != r[0].dosha ensures Score(t, e) == 0 {
        assert e == r[1].dosha || e == r[2].dosha;
      }
    }
  }

  /** When d is the only dosha that scored, it is primary and there is no secondary. */
  lemma OnlyOneScores(t: Object, d: Dosha)
    requires Score(t, d) > 0 && forall e :: e != d ==> Score(t, e) == 0
    ensures Classify(t) == Prakriti(Name(d), None)
  {
    PrimaryIsFirstTopScorer(t, d);
    SecondaryIsRunnerUp(t, d);
  }

  /** Traits equal to a template on all eleven keys, in any key order, give that dosha,
      score 11, no secondary. */
  lemma ExactTemplateMatch(t: Object, d: Dosha)
    requires |t| == 11 && forall i :: 0 <= i < |t| ==> Matches(t[i], d)
    ensures Score(t, d) == 11
    ensures Classify(t) == Prakriti(Name(d), None)
  {
    ScoresOfPureSelection(t, d);
    OnlyOneScores(t, d);
  }

  /** Keys that no template knows change nothing: a template-equal selection followed by
      such entries is still classified as that dosha alone. */
  lemma ExactTemplateMatchWithExtras(t: Object, extra: Object, d: Dosha)
    requires |t| == 11 && forall i :: 0 <= i < |t| ==> Matches(t[i], d)
    requires forall i, e :: 0 <= i < |extra| ==> extra[i].key !in Template(e)
    ensures Score(t + extra, d) == 11
    ensures Classify(t + extra) == Prakriti(Name(d), None)
  {
    ScoresOfPureSelection(t, d);
    UnknownKeysAddNothing(t, extra, Vata);
    UnknownKeysAddNothing(t, extra, Pitta);
    UnknownKeysAddNothing(t, extra, Kapha);
    assert forall e :: Score(t + extra, e) == Score(t, e);
    OnlyOneScores(t + extra, d);
  }

  /** The selection built from a template matches it on every entry. */
  lemma TemplateTraitsMatch(d: Dosha)
    ensures forall i :: 0 <= i < |TemplateTraits(d)| ==> Matches(TemplateTraits(d)[i], d)
  {
    TemplateKeys(d);
  }

  /** A selection that matches nothing falls back to Vata, the first-declared dosha. */
  lemma NoMatchesGiveVata(t: Object)
    requires forall d :: Score(t, d) == 0
    ensures Classify(t) == Prakriti("Vata", None)
  {
    PrimaryIsFirstTopScorer(t, Vata);
    SecondaryIsRunnerUp(t, Vata);
  }

  /** analyzePrakriti: one pass over the trait entries counting matches per template,
      then the stable descending sort and the pick of primary and secondary. */
  method AnalyzePrakriti(traits: Object) returns (p: Prakriti)
    ensures p == Classify(traits)
  {
    var vataScore, pittaScore, kaphaScore := 0, 0, 0;
    var i := 0;
    while i < |traits|
      invariant 0 <= i <= |traits|
      invariant vataScore == Score(traits[..i], Vata)
      invariant pittaScore == Score(traits[..i], Pitta)
      invariant kaphaScore == Score(traits[..i], Kapha)
    {
      var f := traits[i];
      ScoreStep(traits, i);
      if Matches(f, Vata) { vataScore := vataScore + 1; }
      if Matches(f, Pitta) { pittaScore := pittaScore + 1; }
      if Matches(f, Kapha) { kaphaScore := kaphaScore + 1; }
      i := i + 1;
    }
    assert traits[..i] == traits;
    var scores := Rank(vataScore, pittaScore, kaphaScore);
    p := Prakriti(Name(scores[0].dosha), if scores[1].score > 0 then Some(Name(scores[1].dosha)) else None);
  }

  // ---------------------------------------------------------------------------
  // Recommendation bundles
  // ---------------------------------------------------------------------------

  datatype Diet = Diet(
    breakfast: seq<string>, lunch: seq<string>, dinner: seq<string>,
    snacks: seq<string>, waterIntake: string, fruits: seq<string>)

  datatype Slot = Morning | Afternoon | Evening | Night

  /** The schedule's keys in declaration order, as for...in visits them. */
  const Slots: seq<Slot> := [Morning, Afternoon, Evening, Night]

  datatype Schedule = Schedule(morning: seq<string>, afternoon: seq<string>, evening: seq<string>, night: seq<string>)
  {
    function Get(s: Slot): seq<string>
    {
      match s
      case Morning => morning
      case Afternoon => afternoon
      case Evening => evening
      case Night => night
    }

    function Put(s: Slot, l: seq<string>): (r: Schedule)
      ensures r.Get(s) == l
      ensures forall o :: o != s ==> r.Get(o) == Get(o)
    {
      match s
      case Morning => this.(morning := l)
      case Afternoon => this.(afternoon := l)
      case Evening => this.(evening := l)
      case Night => this.(night := l)
    }
  }

  datatype Bundle = Bundle(diet: Diet, schedule: Schedule, followUp: seq<string>)

  const EmptyBundle: Bundle := Bundle(Diet([], [], [], [], "", []), Schedule([], [], [], []), [])

  /** The fixed recommendation template of each dosha; the texts are the constants
      below. */
  function RecsOf(d: Dosha): Bundle
  {
    match d
    case Pitta => Bundle(
      Diet([PittaBreakfast], [PittaLunch], [PittaDinner], [PittaSnacks], PittaWater, [PittaFruits]),
      Schedule([PittaMorning], [PittaAfternoon], [PittaEvening], [PittaNight]),
      [PittaFollowUp])
    case Vata => Bundle(
      Diet([VataBreakfast], [VataLunch], [VataDinner], [VataSnacks], VataWater, [VataFruits]),
      Schedule([VataMorning], [VataAfternoon], [VataEvening], [VataNight]),
      [VataFollowUp])
    case Kapha => Bundle(
      Diet([KaphaBreakfast], [KaphaLunch], [KaphaDinner], [KaphaSnacks], KaphaWater, [KaphaFruits]),
      Schedule([KaphaMorning], [KaphaAfternoon], [KaphaEvening], [KaphaNight]),
      [KaphaFollowUp])
  }

  const PittaBreakfast := "Oatmeal with cooling fruits like pears and pomegranate."
  const PittaLunch := "Steamed vegetables with rice and cooling herbs like coriander."
  const PittaDinner := "Light soups with cucumber salad."
  const PittaSnacks := "Coconut water, fresh mint juice."
  const PittaWater := "At least 2.5 liters of cool water daily."
  const PittaFruits := "Melon, pears, pomegranate."
  const PittaMorning := "Gentle yoga or stretching."
  const PittaAfternoon := "Short rest after lunch."
  const PittaEvening := "Light walk during sunset."
  const PittaNight := "Avoid late-night work; sleep before 10:30 PM."
  const PittaFollowUp := "Weekly meditation to manage irritability."

  const VataBreakfast := "Warm porridge with ghee and nuts."
  const VataLunch := "Rice with dal and steamed vegetables."
  const VataDinner := "Vegetable stew with roti."
  const VataSnacks := "Warm herbal teas like ginger tea."
  const VataWater := "At least 2 liters of warm water daily."
  const VataFruits := "Banana, mango, papaya."
  const VataMorning := "Oil massage before a warm shower."
  const VataAfternoon := "Short nap if needed."
  const VataEvening := "Gentle evening meditation."
  const VataNight := "Go to bed by 10 PM."
  const VataFollowUp := "Daily breathing exercises to reduce anxiety."

  const KaphaBreakfast := "Light smoothie with ginger and berries."
  const KaphaLunch := "Millet roti with spicy vegetables."
  const KaphaDinner := "Clear vegetable soup."
  const KaphaSnacks := "Herbal teas like tulsi or cinnamon tea."
  const KaphaWater := "At least 2 liters of warm water daily."
  const KaphaFruits := "Apples, pears, pomegranate."
  const KaphaMorning := "Brisk walking or jogging."
  const KaphaAfternoon := "Avoid heavy naps."
  const KaphaEvening := "Dance or aerobic activity."
  const KaphaNight := "Light stretching before bed."
  const KaphaFollowUp := "Bi-weekly progress check-ins."

  /** allRecommendations[name]: a bundle for the three dosha names, undefined otherwise. */
  function Recommendations(name: string): Option<Bundle>
  {
    match DoshaNamed(name)
    case Some(d) => Some(RecsOf(d))
    case None => None
  }

  /** What the primary contributes: its template, or nothing for an unknown name. */
  function PrimaryPart(p: Prakriti): Bundle
  {
    match Recommendations(p.primary)
    case Some(r) => r
    case None => EmptyBundle
  }

  /** What the secondary contributes: its template when present and known. */
  function SecondaryPart(p: Prakriti): Option<Bundle>
  {
    match p.secondary
    case None => None
    case Some(s) => Recommendations(s)
  }

  /** Every list of base followed by the same list of extra; base keeps its water intake. */
  function Append(base: Bundle, extra: Bundle): Bundle
  {
    Bundle(
      Diet(base.diet.breakfast + extra.diet.breakfast,
           base.diet.lunch + extra.diet.lunch,
           base.diet.dinner + extra.diet.dinner,
           base.diet.snacks + extra.diet.snacks,
           base.diet.waterIntake,
           base.diet.fruits + extra.diet.fruits),
      Schedule(base.schedule.morning + extra.schedule.morning,
               base.schedule.afternoon + extra.schedule.afternoon,
               base.schedule.evening + extra.schedule.evening,
               base.schedule.night + extra.schedule.night),
      base.followUp + extra.followUp)
  }

  /** The bundle built from the looked-up templates: the primary's, or the empty bundle
      when there is none, with the secondary's appended when there is one. */
  function Merge(primary: Option<Bundle>, secondary: Option<Bundle>): Bundle
  {
    var base := match primary case Some(b) => b case None => EmptyBundle;
    match secondary
    case None => base
    case Some(extra) => Append(base, extra)
  }

  /** generateRecommendations as a value. */
  function Compose(p: Prakriti): Bundle
  {
    Merge(Recommendations(p.primary), SecondaryPart(p))
  }

  /** Without a (known) secondary the bundle is the primary's template field for field;
      a primary that names no template gives the empty bundle. */
  lemma ComposePrimaryOnly(p: Prakriti)
    requires SecondaryPart(p).None?
    ensures DoshaNamed(p.primary).Some? ==> Compose(p) == RecsOf(DoshaNamed(p.primary).value)
    ensures DoshaNamed(p.primary).None? ==> Compose(p) == EmptyBundle
  {
  }

  /** With a known secondary every list is the primary's followed by the secondary's, so
      its length is the sum of the two, and the water intake is the primary's alone. */
  lemma ComposeWithSecondary(p: Prakriti, s: Dosha)
    requires p.secondary == Some(Name(s))
    ensures var b := Compose(p); var base := PrimaryPart(p); var extra := RecsOf(s);
      && b.diet.breakfast == base.diet.breakfast + extra.diet.breakfast
      && b.diet.lunch == base.diet.lunch + extra.diet.lunch
      && b.diet.dinner == base.diet.dinner + extra.diet.dinner
      && b.diet.snacks == base.diet.snacks + extra.diet.snacks
      && b.diet.fruits == base.diet.fruits + extra.diet.fruits
      && (forall slot :: b.schedule.Get(slot) == base.schedule.Get(slot) + extra.schedule.Get(slot))
      && b.followUp == base.followUp + extra.followUp
      && |b.followUp| == |base.followUp| + |extra.followUp|
      && b.diet.waterIntake == base.diet.waterIntake
  {
    assert DoshaNamed(Name(s)) == Some(s);
  }

  /** For a classified selection the bundle always starts with the primary dosha's
      template; the secondary's lists follow exactly when a secondary was found. */
  lemma ClassifiedBundle(t: Object)
    ensures var c := Classify(t); var b := Compose(c); var p := DoshaNamed(c.primary).value;
      && DoshaNamed(c.primary).Some?
      && b.diet.waterIntake == RecsOf(p).diet.waterIntake
      && (c.secondary.None? ==> b == RecsOf(p))
      && (c.secondary.Some? ==> b.followUp == RecsOf(p).followUp + RecsOf(DoshaNamed(c.secondary.value).value).followUp)
  {
    SecondaryIsRunnerUp(t, Vata);
    var c := Classify(t);
    var p := DoshaNamed(c.primary).value;
    assert Recommendations(c.primary) == Some(RecsOf(p));
  }

  /** The worked example: the Vata template yields Vata's breakfast and bedtime. */
  lemma VataExample()
    ensures var b := Compose(Classify(TemplateTraits(Vata)));
      && b.diet.breakfast == [VataBreakfast]
      && b.schedule.night == [VataNight]
  {
    TemplateTraitsMatch(Vata);
    ExactTemplateMatch(TemplateTraits(Vata), Vata);
  }

  /** The secondary block of generateRecommendations: push the extra lists onto the
      diet lists, then onto each schedule slot in turn, then onto the follow-ups. */
  method AppendTemplate(base: Bundle, recs: Bundle) returns (r: Bundle)
    ensures r == Append(base, recs)
  {
    r := base;
    r := r.(diet := r.diet.(breakfast := r.diet.breakfast + recs.diet.breakfast));
    r := r.(diet := r.diet.(lunch := r.diet.lunch + recs.diet.lunch));
    r := r.(diet := r.diet.(dinner := r.diet.dinner + recs.diet.dinner));
    r := r.(diet := r.diet.(snacks := r.diet.snacks + recs.diet.snacks));
    r := r.(diet := r.diet.(fruits := r.diet.fruits + recs.diet.fruits));
    var k := 0;
    while k < |Slots|
      invariant 0 <= k <= |Slots|
      invariant r.diet == Append(base, recs).diet && r.followUp == base.followUp
      invariant forall j :: 0 <= j < k ==> r.schedule.Get(Slots[j]) == base.schedule.Get(Slots[j]) + recs.schedule.Get(Slots[j])
      invariant forall j :: k <= j < |Slots| ==> r.schedule.Get(Slots[j]) == base.schedule.Get(Slots[j])
    {
      var slot := Slots[k];
      r := r.(schedule := r.schedule.Put(slot, r.schedule.Get(slot) + recs.schedule.Get(slot)));
      k := k + 1;
    }
    r := r.(followUp := r.followUp + recs.followUp);
    assert r.schedule.Get(Slots[0]) == Append(base, recs).schedule.morning;
    assert r.schedule.Get(Slots[1]) == Append(base, recs).schedule.afternoon;
    assert r.schedule.Get(Slots[2]) == Append(base, recs).schedule.evening;
    assert r.schedule.Get(Slots[3]) == Append(base, recs).schedule.night;
  }

  /** The body of generateRecommendations once both lookups are done: start from the
      empty bundle, copy the primary's template into it when there is one, then append
      the secondary's when there is one. */
  method BuildRecommendations(primary: Option<Bundle>, secondary: Option<Bundle>) returns (r: Bundle)
    ensures r == Merge(primary, secondary)
  {
    r := EmptyBundle;
    if primary.Some? {
      var recs := primary.value;
      r := Bundle(
        Diet(r.diet.breakfast + recs.diet.breakfast, r.diet.lunch + recs.diet.lunch,
             r.diet.dinner + recs.diet.dinner, r.diet.snacks + recs.diet.snacks,
             recs.diet.waterIntake, r.diet.fruits + recs.diet.fruits),
        recs.schedule,
        r.followUp + recs.followUp);
      assert r == recs;
    }
    if secondary.Some? {
      r := AppendTemplate(r, secondary.value);
    }
  }

  /** generateRecommendations: look up the primary's template, and the secondary's when
      the classification has one, then build the bundle. */
  method GenerateRecommendations(p: Prakriti) returns (r: Bundle)
    ensures r == Compose(p)
  {
    var primary := Recommendations(p.primary);
    var secondary := if p.secondary.Some? then Recommendations(p.secondary.value) else None;
    r := BuildRecommendations(primary, secondary);
  }
}
