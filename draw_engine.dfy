/**
 * The draw: copy the dataset in shuffled order, keep the first `count` cards, and annotate
 * each kept card with a reversed flag and its position label.
 *
 * The random comparator sort is replaced by a `shuffled` argument that is any reordering of
 * the dataset, and the per-card `Math.random() < 0.5` flips by a caller-supplied infinite
 * sequence of booleans `coin`, where `coin(i)` is the flip for the card drawn at index `i`.
 */
module DrawEngine {
  import opened Options
  import opened Cards
  import opened Spreads
  import opened Sequences

  /** `shuffled` is the dataset in some order: same cards, same multiplicities. */
  predicate IsShuffleOf(shuffled: seq<Card>, deck: seq<Card>) {
    multiset(shuffled) == multiset(deck)
  }

  /** How many cards the spread asks for: its number of positions, or the requested count when it has none. */
  function DrawCount(spread: Spread, numCards: int): int {
    if |spread.positions| > 0 then |spread.positions| else numCards
  }

  /** `positions[i] || null`: the label at `i`, or null past the end of the list or for a falsy (empty) label. */
  function PositionLabel(positions: seq<string>, i: nat): Option<string> {
    if i < |positions| && positions[i] != "" then Some(positions[i]) else None
  }

  /** `allowReversed ? Math.random() < 0.5 : false` for the card at index `i`. */
  function ReversedFlag(allowReversed: bool, coin: nat -> bool, i: nat): bool {
    if allowReversed then coin(i) else false
  }

  /** The whole draw pipeline: slice the shuffled copy at the draw count, then annotate card by card.
   * The result is a prefix of the shuffled dataset whose length `slice` fixes: the draw count when
   * the dataset has that many cards, all of them when it has fewer, and for a negative count the
   * dataset minus that many cards from its end. */
  function Draw(shuffled: seq<Card>, spread: Spread, numCards: int, allowReversed: bool, coin: nat -> bool)
    : (r: seq<DrawnCard>)
    ensures var count := DrawCount(spread, numCards);
      && (0 <= count <= |shuffled| ==> |r| == count)
      && (count > |shuffled| ==> |r| == |shuffled|)
      && (count < 0 ==> |r| == if |shuffled| + count < 0 then 0 else |shuffled| + count)
    ensures forall i :: 0 <= i < |r| ==> r[i].Base() == shuffled[i]
  {
    var selected := SliceTo(shuffled, DrawCount(spread, numCards));
    seq(|selected|, i requires 0 <= i < |selected| =>
      Annotate(selected[i], ReversedFlag(allowReversed, coin, i), PositionLabel(spread.positions, i)))
  }

  /** The dataset cards a reading was copied from, in draw order. */
  function Bases(r: seq<DrawnCard>): (b: seq<Card>)
    ensures |b| == |r| && forall i :: 0 <= i < |r| ==> b[i] == r[i].Base()
  {
    seq(|r|, i requires 0 <= i < |r| => r[i].Base())
  }

  /** The position labels of a reading, in draw order. */
  function Labels(r: seq<DrawnCard>): (l: seq<Option<string>>)
    ensures |l| == |r| && forall i :: 0 <= i < |r| ==> l[i] == r[i].position
  {
    seq(|r|, i requires 0 <= i < |r| => r[i].position)
  }

  /** Sampling without replacement: every drawn card is a copy of a dataset card, and no dataset
   * card is drawn more often than the dataset holds it. */
  lemma DrawFromDeck(deck: seq<Card>, shuffled: seq<Card>, spread: Spread, numCards: int,
                     allowReversed: bool, coin: nat -> bool)
    requires IsShuffleOf(shuffled, deck)
    ensures var r := Draw(shuffled, spread, numCards, allowReversed, coin);
      && (forall i :: 0 <= i < |r| ==> r[i].Base() in deck)
      && multiset(Bases(r)) <= multiset(deck)
  {
    var r := Draw(shuffled, spread, numCards, allowReversed, coin);
    PrefixSubMultiset(deck, shuffled, |r|);
    assert Bases(r) == shuffled[..|r|];
  }

  /** When the dataset's cards are pairwise distinct, so are the drawn cards, and so are the
   * dataset cards they were copied from. */
  lemma DrawDistinct(deck: seq<Card>, shuffled: seq<Card>, spread: Spread, numCards: int,
                     allowReversed: bool, coin: nat -> bool)
    requires IsShuffleOf(shuffled, deck) && Distinct(deck)
    ensures Distinct(Bases(Draw(shuffled, spread, numCards, allowReversed, coin)))
    ensures Distinct(Draw(shuffled, spread, numCards, allowReversed, coin))
  {
    var r := Draw(shuffled, spread, numCards, allowReversed, coin);
    PermutationDistinct(deck, shuffled);
    forall i, j | 0 <= i < j < |r| ensures r[i].Base() != r[j].Base() && r[i] != r[j] {
      assert r[i].Base() == shuffled[i] && r[j].Base() == shuffled[j];
    }
  }

  /** Card `i` of a reading carries label `i` of the spread, or null past the end of the
   * spread's list (for a spread of the catalog, whose labels are all non-empty). */
  lemma DrawLabels(shuffled: seq<Card>, k: nat, numCards: int, allowReversed: bool, coin: nat -> bool)
    requires k < |Catalog|
    ensures var positions := Catalog[k].positions;
      var r := Draw(shuffled, Catalog[k], numCards, allowReversed, coin);
      forall i :: 0 <= i < |r| ==>
        (r[i].position.Some? <==> i < |positions|) &&
        (i < |positions| ==> r[i].position == Some(positions[i]))
  {
  }

  /** The free-count spread "None" draws exactly the requested number of cards (when the dataset has
   * that many) and labels none of them. */
  lemma FreeCountUnlabelled(shuffled: seq<Card>, numCards: int, allowReversed: bool, coin: nat -> bool)
    requires 0 <= numCards <= |shuffled|
    ensures var r := Draw(shuffled, Catalog[FreeCount], numCards, allowReversed, coin);
      |r| == numCards && forall i :: 0 <= i < |r| ==> r[i].position == None
  {
  }

  /** A spread with positions draws one card per position, whatever count was requested, and
   * the labels come out in the spread's order. */
  lemma LabelledSpreadFull(shuffled: seq<Card>, k: nat, numCards: int, allowReversed: bool, coin: nat -> bool)
    requires k < |Catalog| && k != FreeCount
    requires |Catalog[k].positions| <= |shuffled|
    ensures var positions := Catalog[k].positions;
      var r := Draw(shuffled, Catalog[k], numCards, allowReversed, coin);
      |r| == |positions| &&
      Labels(r) == seq(|positions|, i requires 0 <= i < |positions| => Some(positions[i]))
  {
  }

  /** With reversal off no drawn card is reversed; with it on, card `i` is reversed exactly when flip `i` says so. */
  lemma DrawReversal(shuffled: seq<Card>, spread: Spread, numCards: int, allowReversed: bool, coin: nat -> bool)
    ensures var r := Draw(shuffled, spread, numCards, allowReversed, coin);
      forall i :: 0 <= i < |r| ==> r[i].reversed == (allowReversed && coin(i))
  {
  }

  /** Celtic Cross on a dataset of at least ten cards: ten distinct cards labelled in the spread's order. */
  lemma CelticCrossReading(deck: seq<Card>, shuffled: seq<Card>, numCards: int, allowReversed: bool, coin: nat -> bool)
    requires IsShuffleOf(shuffled, deck) && Distinct(deck) && |deck| >= 10
    ensures var r := Draw(shuffled, Catalog[CelticCross], numCards, allowReversed, coin);
      && |r| == 10
      && Distinct(r)
      && Labels(r) == [Some("Present"), Some("Challenge"), Some("Past"), Some("Future"), Some("Above"),
                       Some("Below"), Some("Advice"), Some("External Influences"), Some("Hopes/Fears"),
                       Some("Outcome")]
  {
    assert |shuffled| == |deck| by {
      assert |multiset(shuffled)| == |multiset(deck)|;
    }
    LabelledSpreadFull(shuffled, CelticCross, numCards, allowReversed, coin);
    DrawDistinct(deck, shuffled, Catalog[CelticCross], numCards, allowReversed, coin);
  }
}
