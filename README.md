# Droid insult generator: a Dafny model of its state machine

The droid insult generator is one React component (`DroidInsultGenerator`). It builds
novelty phrases of the form `${adj} ${noun}!` from two fixed lists of twelve words each.
It shows one phrase or a Rapid-Fire batch of ten. The user can save the phrase on
screen to a favourites list, and the component counts the phrases generated and saved,
the current streak and the best streak.

This project models that component without its rendering:

- `wrappers.dfy`: module `Wrappers`, an `Option` type.
- `words.dfy`: module `Words`. It holds the two word lists and the phrase template
  `Roast`. A draw is a pair of indices; `RoastAt` gives the phrase of one draw and
  `Roasts` the phrases of a sequence of draws. As an independent reference definition,
  `Split` reads a string back into adjective and noun, and `IsRoast` says a string is
  a well-formed phrase over the two lists.
- `generator.dfy`: module `Generator`. It holds the `Stats` record, the chart data
  `PieData`, and the class `InsultGenerator`. The class has the four state fields and
  the `Valid()` invariant. Its methods are hydration (`Load`), the four actions
  (`Generate`, `GenerateBatch`, `SaveFavorite`, `ResetStreak`) and the counter update
  `UpdateStats` that the actions go through.
- `scenarios.dfy`: module `Scenarios`. These are client runs from a fresh mount, plus
  Save pressed twice from any state. A fresh mount is the constructor followed by
  hydration from empty storage.

Randomness is a parameter. Each `Math.floor(Math.random() * length)` becomes an index
that the caller supplies, and the index must be in range, because that expression
always yields an in-range index.

`Valid()` states the invariants:
- `bestStreak >= streak`;
- favourites have no duplicates and never hold `""` or the placeholder;
- the screen is consistent: either the status line over a batch of exactly ten
  well-formed phrases, or no batch under the placeholder or a single well-formed phrase.

Hydration copies stored data verbatim. The actions therefore do not require `Valid()`.
Each one ensures `old(Valid()) ==> Valid()`. `Load` re-establishes `Valid()` only when
the stored data satisfies the save guard and the streak bound.

Two behaviours of the code are modelled as written:
- Stored data is not validated and has no fallback: the code copies any non-empty
  favourites array and any stats object with at least one key (src/app.tsx:25-26).
- The save guard leaves out only `""`, the placeholder and existing entries. So the
  Rapid-Fire status line `"Batch of insults ready!"` can be saved, once. This is
  `Scenarios.RapidFireSaveSave`.

## Model

| member | source | states |
|---|---|---|
| Words.NoSpaceInAdjectives | src/app.tsx:7-10 | no adjective contains a space, so the first space of a phrase is the one the template puts after the adjective |
| Words.SplitRoast | src/app.tsx:37 | reading a phrase back at its first space and its final `!` gives exactly the adjective and noun it was built from |
| Words.SplitSound | src/app.tsx:37 | every string that splits is the template applied to its two parts, and the first part is space-free |
| Words.IsRoastIff | src/app.tsx:35-37 | a string is accepted as well-formed if and only if it equals `adj + " " + noun + "!"` for some listed adjective and listed noun (both directions) |
| Words.RoastInjective | src/app.tsx:37 | two phrases with listed adjectives are equal exactly when their adjectives and their nouns are equal |
| Words.Roast | src/app.tsx:37 | the phrase template `${adj} ${noun}!` itself, with no contract; its meaning is given by the read-back lemmas above |
| Words.RoastAt | src/app.tsx:35-37 | the phrase of one in-range draw is well-formed and reads back as `Adjectives[i]` and `Nouns[j]` |
| Words.Roasts | src/app.tsx:44-48 | a batch has one phrase per draw, in draw order, each the phrase of its draw and well-formed |
| Generator.Max | src/app.tsx:67 | the result bounds both arguments from above and equals one of them, which is what the conditional lift of the best streak computes |
| Generator.PieData | src/app.tsx:77-80 | the chart derivation, with no contract of its own; how each action moves the two slices is stated in the `ChartMoved` and `PieData` clauses of Generate, GenerateBatch, SaveFavorite and ResetStreak |
| Generator.CanSave | src/app.tsx:55 | the save guard, with no contract: the display is non-empty, is not the placeholder, and is not already a favourite |
| Generator.BatchEmptyOrFull | src/app.tsx:39-49 | in every valid state the batch holds no phrase or exactly ten |
| Generator.RoastIsNotPlaceholder | src/app.tsx:17 | no phrase over the adjective list is the placeholder or the empty string, so a freshly generated phrase passes those two save checks |
| Generator.InsultGenerator.constructor | src/app.tsx:17-20 | the mount state is the placeholder, no favourites, no batch and all-zero statistics, and it satisfies the invariant |
| Generator.InsultGenerator.Load | src/app.tsx:22-27 | non-empty stored favourites replace the list and present stored statistics replace the record, with no check; the invariant holds afterwards when the stored data satisfies it |
| Generator.InsultGenerator.UpdateStats | src/app.tsx:61-73 | a generated update adds the amount to the generated count and to the streak and sets the best streak to the larger of the old best and the new streak; a saved update adds the amount to the saved count only; the streak bound is kept; nothing outside the statistics changes |
| Generator.InsultGenerator.Generate | src/app.tsx:34-41 | the display becomes `Adjectives[i] + " " + Nouns[j] + "!"`, which is well-formed; the batch is emptied; generated and streak go up by one, saved is unchanged, the best streak becomes the larger of the old best and the new streak; favourites are untouched; the chart keeps its two labels in order, its "Generated" slice grows by one and its "Saved" slice is unchanged; the invariant is preserved |
| Generator.InsultGenerator.GenerateBatch | src/app.tsx:43-52 | the batch is exactly ten well-formed phrases, one per draw in order; the display is the status line; generated and streak go up by ten and the best streak is lifted as for Generate; favourites are untouched; the chart's "Generated" slice grows by ten and its "Saved" slice is unchanged; the invariant is preserved |
| Generator.InsultGenerator.SaveFavorite | src/app.tsx:54-59 | when the display is non-empty, not the placeholder and not yet saved, it is appended at the end of the favourites and saved goes up by one; otherwise favourites and statistics are unchanged; the old list is a prefix of the new one; after the call the display cannot be saved again; the chart's "Saved" slice grows by one exactly when the guard admitted the display and its "Generated" slice is unchanged; the invariant is preserved |
| Generator.InsultGenerator.ResetStreak | src/app.tsx:75 | only the streak changes, to zero; generated, saved, best streak, favourites, batch and display are untouched; so the chart data is unchanged; the invariant is preserved |
| Scenarios.FreshStart | src/app.tsx:17-20 | a fresh mount shows the placeholder with no favourites and statistics {0, 0, 0, 0} |
| Scenarios.GenerateOnce | src/app.tsx:34-41 | one Generate from a fresh mount gives statistics {generated 1, saved 0, streak 1, best 1} and no batch |
| Scenarios.RapidFireOnce | src/app.tsx:43-52 | one Rapid-Fire from a fresh mount gives a batch of 10, a generated count of 10 and the status line |
| Scenarios.GenerateSaveSave | src/app.tsx:54-59 | Generate, Save, Save from a fresh mount leaves exactly the generated phrase as the one favourite and a saved count of 1 |
| Scenarios.RapidFireSaveSave | src/app.tsx:50-55 | Rapid-Fire, Save, Save from a fresh mount saves the status line itself as the one favourite, with a saved count of 1 |
| Scenarios.GenerateThriceThenReset | src/app.tsx:61-75 | three Generates and a Reset Streak from a fresh mount leave streak 0, best streak 3, generated 3 and saved 0 |
| Scenarios.SaveTwice | src/app.tsx:54-59 | Save pressed twice in a row, from any state, adds the display string once when the guard admits it and otherwise nothing, adds the same number to saved, and leaves every other counter, the display and the batch unchanged |

## Left out

- Rendering: the JSX, the `framer-motion` animation, the `lucide-react` icons, the `recharts` pie chart and its `COLORS` (src/app.tsx:81-169). These are UI and foreign library code with no state of their own.
- `Math.random()`: it becomes caller-supplied indices, because only the fact that the index is in range matters to the state.
- Writing to `localStorage` after every change of favourites or statistics, and `JSON.stringify`/`JSON.parse` (src/app.tsx:23-24, 29-32). These are host I/O and a foreign serialiser, so the round trip of serialising and parsing is not modelled.
- Generator.InsultGenerator.Load: stored statistics are either absent or a complete record of naturals. A stored object that has some keys but not all four, or has non-numeric or negative values, or a stored favourites value that is not an array of strings, is not modelled. `JSON.parse` throwing on malformed text is not modelled either.
- Counter arithmetic: the counters are modelled as exact unbounded naturals. In the code they are JavaScript numbers (IEEE doubles), so `+= amount` (src/app.tsx:65-66, 69) stops changing a counter above 2^53, and hydration (src/app.tsx:26) can load fractional or huge values. Neither the double rounding nor fractional stored values are captured.
- React's effect scheduling and batched `setState`: each action is modelled as running to completion before the next one starts. So `saveFavorite` reading the rendered `favorites` snapshot while `updateStats` uses a functional updater plays no role here.
