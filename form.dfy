/**
 The state of the idea evaluation wizard and the handlers that change it:
 the current step (1 = enter ideas, 2 = rate them, 3 = results) and the
 list of ideas, together with the navigation buttons' gating.
 */
module Form {
  import opened Evaluation

  class IdeaEvaluationForm {
    var step: int
    var ideas: seq<Idea>

    /** The step is one of the three views and there is always an idea:
        the list starts with one and nothing removes any. */
    ghost predicate Valid()
      reads this
    {
      1 <= step <= 3 && |ideas| >= 1
    }

    /** The state when the form is mounted. */
    constructor ()
      ensures Valid()
      ensures step == 1 && ideas == [Blank()]
    {
      step := 1;
      ideas := [Blank()];
    }

    /** The "Back" button is shown. */
    predicate ShowsBack()
      reads this
    {
      step > 1
    }

    /** The "Next" button is shown. */
    predicate ShowsNext()
      reads this
    {
      step < 3
    }

    /** The rows of the results table, recomputed from the ideas. */
    function Results(): seq<ScoredIdea>
      reads this
    {
      TotalScores(ideas)
    }

    /** "Next": moves one step forward. */
    method Next()
      requires Valid() && ShowsNext()
      modifies this
      ensures Valid()
      ensures step == old(step) + 1 && ideas == old(ideas)
    {
      step := step + 1;
    }

    /** "Back": moves one step back. */
    method Prev()
      requires Valid() && ShowsBack()
      modifies this
      ensures Valid()
      ensures step == old(step) - 1 && ideas == old(ideas)
    {
      step := step - 1;
    }

    /** "Add Another Idea": appends a blank idea, whose row totals 0. */
    method AddIdea()
      requires Valid()
      modifies this
      ensures Valid()
      ensures step == old(step)
      ensures ideas == old(ideas) + [Blank()]
      ensures Results() == old(Results()) + [ScoredIdea("", map[], 0)]
    {
      ideas := ideas + [Blank()];
      BlankTotal();
      assert Results()[|ideas| - 1] == ScoredIdea("", map[], 0);
    }

    /** Typing into the name field of idea `index`. */
    method SetName(index: nat, value: string)
      requires Valid() && index < |ideas|
      modifies this
      ensures Valid()
      ensures step == old(step)
      ensures ideas == old(ideas)[index := WithName(old(ideas)[index], value)]
      ensures Results() == old(Results())[index := old(Results())[index].(name := value)]
    {
      RenameKeepsTotal(ideas[index], value);
      ideas := ideas[index := WithName(ideas[index], value)];
    }

    /** Choosing an option for `criterion` of idea `index`; `value` is what
        parsing the chosen option yielded. */
    method SetScore(index: nat, criterion: Criterion, value: Parsed)
      requires Valid() && index < |ideas|
      modifies this
      ensures Valid()
      ensures step == old(step)
      ensures ideas == old(ideas)[index := WithScore(old(ideas)[index], criterion, value)]
      ensures |Results()| == |old(Results())|
      ensures forall k :: 0 <= k < |ideas| && k != index ==> Results()[k] == old(Results())[k]
      ensures Results()[index].total
           == old(Results())[index].total - ShownScore(old(ideas)[index].scores, criterion)
              + ShownScore(map[criterion := value], criterion)
    {
      TotalAfterScore(ideas[index], criterion, value);
      ideas := ideas[index := WithScore(ideas[index], criterion, value)];
    }
  }

  /** From step 1, Next, Next, Back, Back returns to step 1. */
  method NavigationRoundTrip() returns (final: int)
    ensures final == 1
  {
    var form := new IdeaEvaluationForm();
    form.Next();
    form.Next();
    assert !form.ShowsNext();
    form.Prev();
    form.Prev();
    assert !form.ShowsBack();
    final := form.step;
  }

  /** At the rating step, rating Cost 3 and then 5 leaves 5. */
  method OverwriteScenario() returns (cost: Parsed)
    ensures cost == Num(5)
  {
    var form := new IdeaEvaluationForm();
    form.Next();
    form.SetScore(0, Cost, Num(3));
    form.SetScore(0, Cost, Num(5));
    cost := form.ideas[0].scores[Cost];
  }

  /** Naming "Idea A" and adding a second idea, then rating "Idea A"
      5, 3, 4, 2, 1 and leaving the second unrated, gives the totals 15
      and 0 at the results step. */
  method ResultsScenario() returns (names: seq<string>, totals: seq<int>)
    ensures names == ["Idea A", ""]
    ensures totals == [15, 0]
  {
    var form := new IdeaEvaluationForm();
    form.SetName(0, "Idea A");
    form.AddIdea();
    form.Next();
    form.SetScore(0, Feasibility, Num(5));
    form.SetScore(0, Cost, Num(3));
    form.SetScore(0, Impact, Num(4));
    form.SetScore(0, Alignment, Num(2));
    form.SetScore(0, Timeframe, Num(1));
    form.Next();
    var rows := form.Results();
    names := [rows[0].name, rows[1].name];
    totals := [rows[0].total, rows[1].total];
  }
}
