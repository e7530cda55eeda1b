# Idea evaluation form — a Dafny model

The repository is one React component, `IdeaEvaluationForm`. It is a
three-step wizard. Step 1 collects a list of named ideas. Step 2 rates each
idea from 1 to 5 against five fixed criteria (Feasibility, Cost, Impact,
Alignment, Timeframe). Step 3 shows a results table with each idea's
per-criterion scores and its total.

This project models the logic inside that component:

- `evaluation.dfy`, module `Evaluation`: the pure part. It holds the data
  (criteria, ideas, parsed scores), the `scores[c] || 0` lookup shared by the
  totals and the results cells, and the aggregator `totalScores` (a `map`
  over the ideas of a left-fold `reduce` over the criteria). It also holds
  the lemmas about all of these.
- `form.dfy`, module `Form`: the state. Class `IdeaEvaluationForm` holds
  the fields `step` and `ideas`. Its methods model the handlers: Next, Back,
  Add Another Idea, renaming an idea, rating a criterion. The gating of the
  Back and Next buttons is written as the preconditions of `Prev` and `Next`.
  The three methods after the class are client scenarios: the
  Next, Next, Back, Back round trip, overwriting a score, and the
  two-idea results table with totals 15 and 0.

Design decisions:

- Scores are keyed by the enumeration `Criterion`, not by label strings.
  `CriterionName` gives each criterion's label, and `CriterionNamesDistinct`
  shows that the two keyings agree.
- `parseInt` is not modelled. `SetScore` receives what parsing produced, a
  `Parsed` value: `Num(n)` or `NaN`.
- JavaScript's `x || 0` is modelled by `Falsy`. An absent key, `NaN` and
  `0` are falsy and all show as 0. Every other number shows as itself.
- An out-of-range index makes the rename and rating handlers throw,
  because `updatedIdeas[index]` is `undefined` (index.js:18, 24). Every
  call site passes the index of a rendered idea (index.js:47, 69), so
  `SetName` and `SetScore` require `index < |ideas|`.
- The code does not clamp scores to 1..5. The model keeps any integer.
  The bound 0..25 on a total is proved under the assumption (`Rated`) that
  every stored score came from the selector's options.

## Model

| member | source | states |
|---|---|---|
| `Evaluation.CriterionNamesDistinct` | index.js:11 | The five criterion labels are pairwise distinct, and every criterion is in the fixed list. |
| `Evaluation.Blank` | index.js:10 | The blank idea has an empty name and an empty score map. |
| `Evaluation.ShownScore` | index.js:31 | Looking up `scores[c]` with a default of 0 gives 0 for a missing or NaN score and the stored number otherwise. |
| `Evaluation.ShownScoreOfRated` | index.js:100 | When scores come from the options 1..5 (line 71), a results cell shows the stored score, or 0 if it is unset, and always lies in 0..5. |
| `Evaluation.ReduceIsSum` | index.js:31 | The `reduce` left fold from any start value equals that value plus the sum of the shown scores. |
| `Evaluation.TotalIsSum` | index.js:28-33 | An idea's total is the sum of its five shown scores. A missing or NaN score counts as 0. |
| `Evaluation.BlankTotal` | index.js:52 | A newly added blank idea has total 0. |
| `Evaluation.TotalOfRated` | index.js:71-72 | If every stored score is a selector option 1..5, the total lies in 0..25. |
| `Evaluation.RatedAfterScore` | index.js:69-72 | Storing a selector option keeps every stored score within 1..5. |
| `Evaluation.WithScore` | index.js:24 | Rating writes `v` under `c`, keeps the name, adds only key `c`, and leaves every other criterion's score unchanged. |
| `Evaluation.WithName` | index.js:18 | Writing the name field replaces the name with the typed value and keeps the scores. |
| `Evaluation.WithTotal` | index.js:29-32 | The spread `{...idea, total}` keeps the idea's name and scores and adds its total. |
| `Evaluation.RenameKeepsTotal` | index.js:16-20 | Renaming an idea does not change its total. |
| `Evaluation.LastWriteWins` | index.js:22-26 | Rating the same criterion twice has the same effect as only the second rating. |
| `Evaluation.TotalAfterScore` | index.js:22-33 | After rating `c` with `v`, the total changes by the new shown value minus the old shown score of `c`. |
| `Evaluation.TotalScores` | index.js:28-33 | One row per idea, in the same order and of the same length. Each row keeps its idea's name and scores and carries that idea's total. |
| `Form.IdeaEvaluationForm.constructor` | index.js:9-10 | The form starts at step 1 with exactly one blank idea. |
| `Form.IdeaEvaluationForm.Next` | index.js:13 | Shown only when `step < 3` (line 112). It raises the step by exactly 1, keeps it within 1..3 and leaves the ideas unchanged. |
| `Form.IdeaEvaluationForm.Prev` | index.js:14 | Shown only when `step > 1` (line 111). It lowers the step by exactly 1, keeps it within 1..3 and leaves the ideas unchanged. |
| `Form.IdeaEvaluationForm.AddIdea` | index.js:52 | Appends one blank idea. Earlier ideas and the step are unchanged, and the results gain one row with an empty name, no scores and total 0. |
| `Form.IdeaEvaluationForm.SetName` | index.js:16-20 | Only the name of idea `index` changes. Its scores, the other ideas, the length and the step stay the same. In the results only that row's name changes. |
| `Form.IdeaEvaluationForm.SetScore` | index.js:22-26 | Only idea `index` changes, and only the score under `criterion`. Other rows of the results are unchanged. That row's total moves by the new shown value minus the old one. |
| `Form.NavigationRoundTrip` | index.js:13-14 | From a new form, Next, Next, Back, Back is allowed by the gating and returns to step 1. |
| `Form.OverwriteScenario` | index.js:22-26 | Rating Cost 3 and then 5 leaves 5. |
| `Form.ResultsScenario` | index.js:28-33 | Naming "Idea A" and adding a second idea at step 1, then rating "Idea A" 5, 3, 4, 2, 1 at step 2 and moving to step 3, gives the rows "Idea A" and "" with totals 15 and 0. |

## Left out

- The JSX rendering, layout and CSS classes (index.js:35-118), and the UI primitives Card, Button, Input, Label and Select. The library that provides them is not part of this model. The parts of the markup that are modelled are the gating of the Back and Next buttons (index.js:111-112), the "Add Another Idea" click handler (index.js:52), the `onChange` call sites that fix which field is renamed and which indices are passed (index.js:47, 69), and the results cell expression (index.js:100).
- The step-conditional views (index.js:39, 58, 82). In the UI, names can be edited and ideas added only at step 1, and scores can be set only at step 2. `SetName`, `AddIdea` and `SetScore` carry no step precondition, so the model lets these three handlers run at any step.
- React's `useState` scheduling and re-rendering. Each setter is modelled as an immediate update of the state. Handlers are modelled as reading the latest state, not a stale render's closure.
- `parseInt` on arbitrary text. Its result is a parameter of `SetScore`.
- The select's displayed value `idea.scores[criterion] || ""` (index.js:68). It is rendering only.
- Object aliasing. The handlers copy the array only shallowly and then mutate the shared idea objects in place (index.js:17-18, 23-24). The model updates element `index` as a value, which is the handlers' observable effect on the new state.
- The generic `field` argument of `handleIdeaChange`. Its only call site passes `"name"` (index.js:47), so `SetName` updates only the name.
- JavaScript numbers are IEEE doubles. The model uses unbounded integers. They agree for every total the selector can produce.
