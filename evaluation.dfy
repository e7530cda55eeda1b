/**
 The data of the idea evaluation form and its score aggregator: ideas, the
 five fixed criteria, the per-criterion score shown for an idea, and the
 table of totals derived from the list of ideas.
 */
module Evaluation {

  /** The five fixed evaluation criteria, in display order. */
  datatype Criterion = Feasibility | Cost | Impact | Alignment | Timeframe

  const Criteria: seq<Criterion> := [Feasibility, Cost, Impact, Alignment, Timeframe]

  /** The label under which a criterion is shown and stored. */
  function CriterionName(c: Criterion): string
  {
    match c
    case Feasibility => "Feasibility"
    case Cost => "Cost"
    case Impact => "Impact"
    case Alignment => "Alignment"
    case Timeframe => "Timeframe"
  }

  /** Keying scores by criterion is the same as keying them by label:
      the five labels are pairwise distinct, and every criterion is listed. */
  lemma CriterionNamesDistinct(c: Criterion, d: Criterion)
    ensures CriterionName(c) == CriterionName(d) <==> c == d
    ensures c in Criteria
  {
  }

  /** What parsing a selected option yields: an integer, or the
      not-a-number marker for text that is not a number. */
  datatype Parsed = Num(n: int) | NaN

  /** An idea: a free-text name and the scores rated so far. */
  datatype Idea = Idea(name: string, scores: map<Criterion, Parsed>)

  /** An idea as the results table shows it, with its total. */
  datatype ScoredIdea = ScoredIdea(name: string, scores: map<Criterion, Parsed>, total: int)

  /** The idea that the list starts with and that "Add Another Idea" appends. */
  function Blank(): (r: Idea)
    ensures r.name == "" && r.scores == map[]
  {
    Idea("", map[])
  }

  /** The result of looking a key up in the scores object. */
  datatype Option = Absent | Present(value: Parsed)

  function Lookup(scores: map<Criterion, Parsed>, c: Criterion): (r: Option)
  {
    if c in scores then Present(scores[c]) else Absent
  }

  /** Whether a looked-up score is falsy: absent (undefined), NaN, or 0. */
  predicate Falsy(v: Option)
  {
    match v
    case Absent => true
    case Present(NaN) => true
    case Present(Num(n)) => n == 0
  }

  /** `scores[c] || 0`: the score a criterion contributes to the total and
      shows in the results table. */
  function ShownScore(scores: map<Criterion, Parsed>, c: Criterion): (r: int)
    ensures c !in scores ==> r == 0
    ensures c in scores && scores[c].NaN? ==> r == 0
    ensures c in scores && scores[c].Num? ==> r == scores[c].n
  {
    var v := Lookup(scores, c);
    if Falsy(v) then 0 else v.value.n
  }

  /** Every stored score is one of the selector's options 1..5. */
  ghost predicate Rated(scores: map<Criterion, Parsed>)
  {
    forall c :: c in scores ==> scores[c].Num? && 1 <= scores[c].n <= 5
  }

  /** With scores from the selector, a results cell shows the stored score,
      or 0 for a criterion not yet rated, and never anything outside 0..5. */
  lemma ShownScoreOfRated(scores: map<Criterion, Parsed>, c: Criterion)
    requires Rated(scores)
    ensures ShownScore(scores, c) == (if c in scores then scores[c].n else 0)
    ensures 0 <= ShownScore(scores, c) <= 5
  {
  }

  /** `cs.reduce((sum, c) => sum + (scores[c] || 0), acc)`: a left fold. */
  function Reduce(scores: map<Criterion, Parsed>, cs: seq<Criterion>, acc: int): (r: int)
    decreases |cs|
  {
    if cs == [] then acc else Reduce(scores, cs[1..], acc + ShownScore(scores, cs[0]))
  }

  /** The sum over `cs` of the shown scores, as a reference definition. */
  function SumShown(scores: map<Criterion, Parsed>, cs: seq<Criterion>): (r: int)
    decreases |cs|
  {
    if cs == [] then 0 else ShownScore(scores, cs[0]) + SumShown(scores, cs[1..])
  }

  /** An idea's total: the reduction over the five criteria starting at 0. */
  function Total(idea: Idea): (r: int)
  {
    Reduce(idea.scores, Criteria, 0)
  }

  /** The left fold computes the sum, shifted by its initial value. */
  lemma {:induction false} ReduceIsSum(scores: map<Criterion, Parsed>, cs: seq<Criterion>, acc: int)
    ensures Reduce(scores, cs, acc) == acc + SumShown(scores, cs)
    decreases |cs|
  {
    if cs != [] {
      ReduceIsSum(scores, cs[1..], acc + ShownScore(scores, cs[0]));
    }
  }

  /** The total is the sum of the five shown scores, with a missing or NaN
      score counting as 0. */
  lemma TotalIsSum(idea: Idea)
    ensures Total(idea) == ShownScore(idea.scores, Feasibility) + ShownScore(idea.scores, Cost)
                         + ShownScore(idea.scores, Impact) + ShownScore(idea.scores, Alignment)
                         + ShownScore(idea.scores, Timeframe)
  {
  }

  /** An idea with no scores has total 0. */
  lemma BlankTotal()
    ensures Total(Blank()) == 0
  {
    TotalIsSum(Blank());
  }

  /** Selector scores keep each total within 0..25. */
  lemma TotalOfRated(idea: Idea)
    requires Rated(idea.scores)
    ensures 0 <= Total(idea) <= 25
  {
    TotalIsSum(idea);
    ShownScoreOfRated(idea.scores, Feasibility);
    ShownScoreOfRated(idea.scores, Cost);
    ShownScoreOfRated(idea.scores, Impact);
    ShownScoreOfRated(idea.scores, Alignment);
    ShownScoreOfRated(idea.scores, Timeframe);
  }

  /** Rating with a selector option keeps every stored score among the
      options. */
  lemma RatedAfterScore(idea: Idea, c: Criterion, n: int)
    requires Rated(idea.scores) && 1 <= n <= 5
    ensures Rated(WithScore(idea, c, Num(n)).scores)
  {
  }

  /** The idea with its name replaced. */
  function WithName(idea: Idea, name: string): (r: Idea)
    ensures r.name == name && r.scores == idea.scores
  {
    idea.(name := name)
  }

  /** The idea with the score under one criterion replaced. */
  function WithScore(idea: Idea, c: Criterion, v: Parsed): (r: Idea)
    ensures r.name == idea.name && c in r.scores && r.scores[c] == v
    ensures r.scores.Keys == idea.scores.Keys + {c}
    ensures forall d :: d != c && d in idea.scores ==> r.scores[d] == idea.scores[d]
  {
    idea.(scores := idea.scores[c := v])
  }

  /** Renaming leaves the total unchanged. */
  lemma RenameKeepsTotal(idea: Idea, name: string)
    ensures Total(WithName(idea, name)) == Total(idea)
  {
  }

  /** Setting a score twice keeps only the last value. */
  lemma LastWriteWins(idea: Idea, c: Criterion, first: Parsed, second: Parsed)
    ensures WithScore(WithScore(idea, c, first), c, second) == WithScore(idea, c, second)
  {
  }

  /** Setting a score changes the total by exactly the difference between
      the new and the old shown score of that criterion. */
  lemma TotalAfterScore(idea: Idea, c: Criterion, v: Parsed)
    ensures Total(WithScore(idea, c, v))
         == Total(idea) - ShownScore(idea.scores, c) + ShownScore(map[c := v], c)
  {
    TotalIsSum(idea);
    TotalIsSum(WithScore(idea, c, v));
  }

  /** `{...idea, total}`: the idea together with its total. */
  function WithTotal(idea: Idea): (r: ScoredIdea)
    ensures r.name == idea.name && r.scores == idea.scores && r.total == Total(idea)
  {
    ScoredIdea(idea.name, idea.scores, Total(idea))
  }

  /** `ideas.map(...)`: one scored row per idea, in the same order, each
      keeping its idea's name and scores. */
  function TotalScores(ideas: seq<Idea>): (r: seq<ScoredIdea>)
    ensures |r| == |ideas|
    ensures forall k :: 0 <= k < |ideas| ==>
              r[k].name == ideas[k].name && r[k].scores == ideas[k].scores && r[k].total == Total(ideas[k])
    decreases |ideas|
  {
    if ideas == [] then [] else [WithTotal(ideas[0])] + TotalScores(ideas[1..])
  }
}
