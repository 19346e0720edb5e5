# Tarot card reader: draw engine and reading state

A Dafny model of the logic of the tarotates card reader, a single React component
(`src/App.js`). The component keeps five pieces of state. `numCards` is the requested count.
`drawnCards` is the current reading. `allowReversed` is the reversal toggle. `selectedSpread`
is an index into the spread table. `modalCard` is the card shown in the detail view. Its
handlers overwrite these fields. The "Draw Cards" handler copies the card dataset in random
order, keeps the first `count` cards with `slice`, and annotates each kept card with
`reversed` and with the spread's position label.

Modules (one per concern of `src/App.js`):

- `Options`: the `Option` datatype, standing for JavaScript's `null`/NaN.
- `Cards`: a dataset card, and a drawn card. A drawn card is that card's fields plus
  `reversed` and `position`. `Annotate` is the object spread `{...card, reversed, position}`
  and `Base` projects the copy back.
- `Spreads`: the `SPREADS` table as the constant `Catalog`.
- `Sequences`: pairwise distinctness, `Array.prototype.slice(0, end)` on integers, and the
  multiset facts behind "a prefix of a reordering samples without replacement".
- `DrawEngine`: the pure copy, sort, slice and map pipeline of `drawCards`. The random sort
  becomes an argument `shuffled`, which is any reordering of the dataset (`IsShuffleOf`).
  The `Math.random() < 0.5` flips become an infinite flip sequence `coin: nat -> bool`, where
  `coin(i)` is the flip for the card drawn at index `i`.
- `Reading`: the five fields as a value `State`, the handlers as actions applied by `Apply`,
  and sessions (`Run`) with an invariant proved over every reachable state. The class
  `Reading.App` holds the five fields. Each of its handler methods states its full new state,
  and `Snapshot() == Apply(old(Snapshot()), …)`.

Behaviour of the handlers worth knowing:

- `resetReading` empties the reading but leaves the detail view open on its card.
- `drawCards` does not close the detail view.
- Selecting another spread keeps the existing reading.
- Nothing rejects an out-of-range count. `slice` clamps a count above the dataset's size to
  the whole dataset, and a negative count drops that many cards from the end of the shuffled
  copy.
- The count field stores `parseInt(v) || 1`. NaN and 0 become 1; a negative number is kept.

## Model

| member | source | states |
|---|---|---|
| `Cards.Annotate` | src/App.js:60-64 | the drawn card projects back to exactly its source card (`Base`) and carries the given `reversed` and `position` |
| `Cards.AnnotateBase` | src/App.js:61 | a drawn card holds nothing beyond its source card's fields and the two added ones (`Annotate` inverts `Base`) |
| `Cards.AnnotateInjective` | src/App.js:61 | two annotated copies are equal exactly when source card, flag and label are all equal |
| `Spreads.CatalogShape` | src/App.js:5-46 | eight spreads; every position label is non-empty; "None" (index 0) is the only spread without positions; Celtic Cross has ten |
| `Sequences.SliceEnd` | src/App.js:60 | `slice(0, end)` stops at `end` within the bounds, at the length above them, and counts back from the length for a negative `end`, stopping at 0 |
| `Sequences.SliceTo` | src/App.js:60 | `slice(0, end)` is a prefix of the sequence whose length is `SliceEnd` |
| `Sequences.PermutationDistinct` | src/App.js:56 | a reordering of a sequence without repetitions has no repetitions |
| `Sequences.PrefixSubMultiset` | src/App.js:60 | a prefix of a reordering of `s` takes no value more often than `s` holds it, and each of its elements is in `s` |
| `DrawEngine.Draw` | src/App.js:55-66 | the reading is a prefix of the shuffled dataset; it has exactly `count` cards when `0 <= count <=` dataset size, every card when `count` is larger, and the size minus `-count` (at least 0) when `count` is negative; `count` is the spread's position count, or `numCards` for a spread without positions |
| `DrawEngine.DrawFromDeck` | src/App.js:56-60 | every drawn card is a copy of a dataset card, and the drawn cards as a multiset are contained in the dataset |
| `DrawEngine.DrawDistinct` | src/App.js:56-64 | when the dataset's cards are pairwise distinct, the drawn cards are pairwise distinct, and so are their source cards |
| `DrawEngine.DrawLabels` | src/App.js:57-63 | for a catalog spread, card `i` has a label exactly when `i` is below the position count, and then the label is `positions[i]` |
| `DrawEngine.FreeCountUnlabelled` | src/App.js:58-63 | the spread "None" with `0 <= numCards <=` dataset size draws exactly `numCards` cards, all with a null position |
| `DrawEngine.LabelledSpreadFull` | src/App.js:58-63 | on a dataset with at least as many cards as positions, a catalog spread with positions draws one card per position whatever `numCards` is, labelled in the spread's order |
| `DrawEngine.DrawReversal` | src/App.js:62 | card `i` is reversed exactly when reversal is allowed and flip `i` is true, so never when reversal is off |
| `DrawEngine.CelticCrossReading` | src/App.js:55-64 | Celtic Cross on a dataset of at least ten distinct cards gives ten distinct cards labelled Present, Challenge, Past, Future, Above, Below, Advice, External Influences, Hopes/Fears, Outcome |
| `Reading.CountInput` | src/App.js:110 | the stored count is never 0; a parsed non-zero integer, negative ones included, is kept; NaN and 0 become 1 |
| `Reading.Apply` | src/App.js:55-119 | every handler leaves a catalog spread selected |
| `Reading.ApplyKeepsInv` | src/App.js:55-119 | every handler keeps the state invariant: catalog spread, count not 0, drawn cards copied from the dataset and pairwise distinct when the dataset's cards are |
| `Reading.RunKeepsInv` | src/App.js:49-119 | any sequence of handlers keeps that invariant |
| `Reading.ReachableStates` | src/App.js:49-119 | from the initial state, in every reachable state the count is not 0 and the reading holds distinct dataset cards |
| `Reading.DrawFrame` | src/App.js:55-66 | drawing replaces `drawnCards` as a whole and leaves `numCards`, `allowReversed`, `selectedSpread` and `modalCard` unchanged |
| `Reading.ResetKeepsModal` | src/App.js:68-70 | after opening a card and resetting, the reading is empty while the detail view still shows that card; nothing else changes |
| `Reading.ModalTransitions` | src/App.js:72-78 | closing the detail view sets it to null and is idempotent; opening a card sets it to that card and changes nothing else |
| `Reading.SettingsKeepReading` | src/App.js:92-119 | changing the spread, the count or the reversal toggle keeps the drawn cards, labels and flags included |
| `Reading.App.constructor` | src/App.js:49-53 | the initial state: count 3, empty reading, reversal off, spread 0, no detail view |
| `Reading.App.DrawCards` | src/App.js:55-66 | the reading becomes the draw for the current spread, count and toggle; the other four fields are unchanged; the invariant is kept |
| `Reading.App.ResetReading` | src/App.js:68-70 | the reading becomes empty; the other four fields, the detail view included, are unchanged |
| `Reading.App.OpenModal` | src/App.js:72-74 | the detail view shows the given card; nothing else changes |
| `Reading.App.CloseModal` | src/App.js:76-78 | the detail view is null; nothing else changes |
| `Reading.App.SelectSpread` | src/App.js:92 | the selected spread becomes the chosen index; nothing else changes, the reading included |
| `Reading.App.SetNumCards` | src/App.js:110 | the count becomes `CountInput` of the parsed field; nothing else changes |
| `Reading.App.SetAllowReversed` | src/App.js:119 | the toggle becomes the checkbox's value; nothing else changes, the drawn cards included |

## Left out

- Rendering: the JSX, CSS classes, layout tags' visual effect, the selector's option text and the detail-view markup (src/App.js:80-326). This is presentation only.
- Randomness: `Math.random` and the random-comparator `sort` (src/App.js:56, 62). The model takes any reordering of the dataset and any flip sequence. It claims nothing about uniformity or about the comparator's bias.
- The JSON dataset import (src/App.js:3) and image paths (src/App.js:146). These are external assets. The dataset is a constructor argument of `Reading.App`, and a card is a record of the dataset's fields.
- `parseInt` string parsing: the count field's input is already an optional integer (`None` for NaN). The spread selector's value is an index of the catalog, because the selector offers only those; `Reading.App.SelectSpread` requires that.
- React's asynchronous batching of state updates: each handler is one atomic update.
- Number precision: counts are unbounded integers, not IEEE doubles.
