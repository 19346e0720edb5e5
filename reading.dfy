/**
 * The reading state of the App component: five independent state fields, each handler
 * overwriting some of them as one atomic update.
 *
 * `State` and `Apply` give the transitions as values, so that properties of whole sessions can
 * be stated; the class `App` holds the fields and its handler methods are specified by `Apply`.
 * The handlers are modelled as written: resetting does not close the detail view, drawing does
 * not close it either, and changing the spread keeps the cards already drawn.
 */
module Reading {
  import opened Options
  import opened Cards
  import opened Spreads
  import opened Sequences
  import DrawEngine

  /** `numCards`, `drawnCards`, `allowReversed`, `selectedSpread` and `modalCard`. */
  datatype State = State(
    numCards: int,
    drawnCards: seq<DrawnCard>,
    allowReversed: bool,
    selectedSpread: nat,
    modalCard: Option<DrawnCard>)

  /** The state on first render: three cards requested, nothing drawn, no reversal, spread "None", no detail view. */
  const Initial: State := State(3, [], false, FreeCount, None)

  /** The user actions. `DrawCards` carries the shuffled dataset and the coin flips the draw consumes;
   * `EnterCount` carries the result of `parseInt` on the count field, `None` standing for NaN. */
  datatype Action =
    | DrawCards(shuffled: seq<Card>, coin: nat -> bool)
    | Reset
    | Open(card: DrawnCard)
    | Close
    | PickSpread(index: nat)
    | EnterCount(parsed: Option<int>)
    | CheckReversed(checked: bool)

  /** `parseInt(value) || 1`: NaN and 0 are falsy and become 1; every other integer is stored as it is. */
  function CountInput(parsed: Option<int>): (n: int)
    ensures n != 0
    ensures n == 1 <==> parsed == None || parsed == Some(0) || parsed == Some(1)
    ensures parsed.Some? && parsed.value != 0 ==> n == parsed.value
  {
    match parsed
    case None => 1
    case Some(v) => if v == 0 then 1 else v
  }

  /** The spread selector only offers the catalog's indices. */
  predicate Enabled(a: Action) {
    a.PickSpread? ==> a.index < |Catalog|
  }

  /** One handler run to completion. */
  function Apply(s: State, a: Action): (t: State)
    requires s.selectedSpread < |Catalog| && Enabled(a)
    ensures t.selectedSpread < |Catalog|
  {
    match a
    case DrawCards(shuffled, coin) =>
      s.(drawnCards := DrawEngine.Draw(shuffled, Catalog[s.selectedSpread], s.numCards, s.allowReversed, coin))
    case Reset => s.(drawnCards := [])
    case Open(card) => s.(modalCard := Some(card))
    case Close => s.(modalCard := None)
    case PickSpread(index) => s.(selectedSpread := index)
    case EnterCount(parsed) => s.(numCards := CountInput(parsed))
    case CheckReversed(checked) => s.(allowReversed := checked)
  }

  predicate AllEnabled(actions: seq<Action>) {
    forall k :: 0 <= k < |actions| ==> Enabled(actions[k])
  }

  /** A session: the actions applied one after another. */
  function Run(s: State, actions: seq<Action>): (t: State)
    requires s.selectedSpread < |Catalog| && AllEnabled(actions)
    ensures t.selectedSpread < |Catalog|
    decreases |actions|
  {
    if actions == [] then s else Run(Apply(s, actions[0]), actions[1..])
  }

  /** An action the running page can perform on dataset `deck`: a spread from the selector, and a
   * draw from a reordering of the dataset. */
  predicate Allowed(deck: seq<Card>, a: Action) {
    Enabled(a) && DrawsFrom(deck, a)
  }

  /** A draw action draws from a reordering of dataset `deck`. */
  predicate DrawsFrom(deck: seq<Card>, a: Action) {
    a.DrawCards? ==> DrawEngine.IsShuffleOf(a.shuffled, deck)
  }

  /** A session the running page can perform on dataset `deck`: every action is `Allowed`. */
  predicate Session(deck: seq<Card>, actions: seq<Action>) {
    && AllEnabled(actions)
    && forall k :: 0 <= k < |actions| ==> DrawsFrom(deck, actions[k])
  }

  /** What holds in every state a session reaches: a catalog spread is selected, the requested count
   * is never 0, every drawn card is a copy of a dataset card, and the drawn cards are pairwise
   * distinct when the dataset's cards are. */
  predicate Inv(deck: seq<Card>, s: State) {
    && s.selectedSpread < |Catalog|
    && s.numCards != 0
    && (forall i :: 0 <= i < |s.drawnCards| ==> s.drawnCards[i].Base() in deck)
    && (Distinct(deck) ==> Distinct(s.drawnCards))
  }

  /** Every handler keeps the invariant. */
  lemma ApplyKeepsInv(deck: seq<Card>, s: State, a: Action)
    requires Inv(deck, s) && Allowed(deck, a)
    ensures Inv(deck, Apply(s, a))
  {
    if a.DrawCards? {
      var spread := Catalog[s.selectedSpread];
      DrawEngine.DrawFromDeck(deck, a.shuffled, spread, s.numCards, s.allowReversed, a.coin);
      if Distinct(deck) {
        DrawEngine.DrawDistinct(deck, a.shuffled, spread, s.numCards, s.allowReversed, a.coin);
      }
    }
  }

  /** Every session keeps the invariant. */
  lemma {:induction false} RunKeepsInv(deck: seq<Card>, s: State, actions: seq<Action>)
    requires Inv(deck, s) && Session(deck, actions)
    ensures Inv(deck, Run(s, actions))
    decreases |actions|
  {
    if actions != [] {
      assert Session(deck, actions[1..]) by {
        forall k | 0 <= k < |actions| - 1 ensures Allowed(deck, actions[1..][k]) {
          assert Allowed(deck, actions[k + 1]);
          assert actions[1..][k] == actions[k + 1];
        }
      }
      ApplyKeepsInv(deck, s, actions[0]);
      RunKeepsInv(deck, Apply(s, actions[0]), actions[1..]);
    }
  }

  /** From the initial state, whatever the user does, the count is never 0 and no card is shown
   * twice in a reading of a dataset without duplicates. */
  lemma ReachableStates(deck: seq<Card>, actions: seq<Action>)
    requires Distinct(deck) && Session(deck, actions)
    ensures var t := Run(Initial, actions);
      t.numCards != 0 && Distinct(t.drawnCards) &&
      forall i :: 0 <= i < |t.drawnCards| ==> t.drawnCards[i].Base() in deck
  {
    RunKeepsInv(deck, Initial, actions);
  }

  /** Drawing replaces the reading as a whole and leaves the other four fields, the detail view included, as they were. */
  lemma DrawFrame(s: State, shuffled: seq<Card>, coin: nat -> bool)
    requires s.selectedSpread < |Catalog|
    ensures var t := Apply(s, DrawCards(shuffled, coin));
      && t.drawnCards == DrawEngine.Draw(shuffled, Catalog[s.selectedSpread], s.numCards, s.allowReversed, coin)
      && t.numCards == s.numCards && t.allowReversed == s.allowReversed
      && t.selectedSpread == s.selectedSpread && t.modalCard == s.modalCard
  {
  }

  /** Resetting empties the reading and changes nothing else: a card open in the detail view stays
   * open although it is no longer part of any reading. */
  lemma ResetKeepsModal(s: State, card: DrawnCard)
    requires s.selectedSpread < |Catalog|
    ensures var t := Apply(Apply(s, Open(card)), Reset);
      t.drawnCards == [] && t.modalCard == Some(card) &&
      t == s.(drawnCards := [], modalCard := Some(card))
  {
  }

  /** Closing the detail view is idempotent, and opening a card changes nothing but the detail view. */
  lemma ModalTransitions(s: State, card: DrawnCard)
    requires s.selectedSpread < |Catalog|
    ensures Apply(Apply(s, Close), Close) == Apply(s, Close) == s.(modalCard := None)
    ensures Apply(s, Open(card)) == s.(modalCard := Some(card))
  {
  }

  /** Choosing another spread or toggling reversal keeps the cards already drawn, labels and flags included. */
  lemma SettingsKeepReading(s: State, index: nat, checked: bool, parsed: Option<int>)
    requires s.selectedSpread < |Catalog| && index < |Catalog|
    ensures Apply(s, PickSpread(index)).drawnCards == s.drawnCards
    ensures Apply(s, CheckReversed(checked)).drawnCards == s.drawnCards
    ensures Apply(s, EnterCount(parsed)).drawnCards == s.drawnCards
  {
  }

  /** The App component's state, held in five fields that its handlers overwrite. */
  class App {
    /** The card dataset, loaded once before the first render. */
    const deck: seq<Card>
    var numCards: int
    var drawnCards: seq<DrawnCard>
    var allowReversed: bool
    var selectedSpread: nat
    var modalCard: Option<DrawnCard>

    /** The five fields as a value. */
    function Snapshot(): State
      reads this
    {
      State(numCards, drawnCards, allowReversed, selectedSpread, modalCard)
    }

    ghost predicate Valid()
      reads this
    {
      Inv(deck, Snapshot())
    }

    constructor (deck: seq<Card>)
      ensures this.deck == deck
      ensures Snapshot() == Initial && Valid()
    {
      this.deck := deck;
      numCards := 3;
      drawnCards := [];
      allowReversed := false;
      selectedSpread := FreeCount;
      modalCard := None;
    }

    /** The "Draw Cards" button. */
    method DrawCards(shuffled: seq<Card>, coin: nat -> bool)
      requires Valid() && DrawEngine.IsShuffleOf(shuffled, deck)
      modifies this
      ensures Valid()
      ensures drawnCards == DrawEngine.Draw(shuffled, Catalog[old(selectedSpread)], old(numCards), old(allowReversed), coin)
      ensures numCards == old(numCards) && allowReversed == old(allowReversed)
      ensures selectedSpread == old(selectedSpread) && modalCard == old(modalCard)
      ensures Snapshot() == Apply(old(Snapshot()), Action.DrawCards(shuffled, coin))
    {
      ApplyKeepsInv(deck, Snapshot(), Action.DrawCards(shuffled, coin));
      var spread := Catalog[selectedSpread];
      drawnCards := DrawEngine.Draw(shuffled, spread, numCards, allowReversed, coin);
    }

    /** The "Reset" button. */
    method ResetReading()
      requires Valid()
      modifies this
      ensures Valid()
      ensures drawnCards == []
      ensures numCards == old(numCards) && allowReversed == old(allowReversed)
      ensures selectedSpread == old(selectedSpread) && modalCard == old(modalCard)
      ensures Snapshot() == Apply(old(Snapshot()), Reset)
    {
      drawnCards := [];
    }

    /** A click on a drawn card. */
    method OpenModal(card: DrawnCard)
      requires Valid()
      modifies this
      ensures Valid()
      ensures modalCard == Some(card)
      ensures numCards == old(numCards) && drawnCards == old(drawnCards)
      ensures allowReversed == old(allowReversed) && selectedSpread == old(selectedSpread)
      ensures Snapshot() == Apply(old(Snapshot()), Open(card))
    {
      modalCard := Some(card);
    }

    /** A click on the overlay or on the close control. */
    method CloseModal()
      requires Valid()
      modifies this
      ensures Valid()
      ensures modalCard == None
      ensures numCards == old(numCards) && drawnCards == old(drawnCards)
      ensures allowReversed == old(allowReversed) && selectedSpread == old(selectedSpread)
      ensures Snapshot() == Apply(old(Snapshot()), Close)
    {
      modalCard := None;
    }

    /** The spread selector's change handler. */
    method SelectSpread(index: nat)
      requires Valid() && index < |Catalog|
      modifies this
      ensures Valid()
      ensures selectedSpread == index
      ensures numCards == old(numCards) && drawnCards == old(drawnCards)
      ensures allowReversed == old(allowReversed) && modalCard == old(modalCard)
      ensures Snapshot() == Apply(old(Snapshot()), PickSpread(index))
    {
      selectedSpread := index;
    }

    /** The card count field's change handler. */
    method SetNumCards(parsed: Option<int>)
      requires Valid()
      modifies this
      ensures Valid()
      ensures numCards == CountInput(parsed)
      ensures drawnCards == old(drawnCards) && allowReversed == old(allowReversed)
      ensures selectedSpread == old(selectedSpread) && modalCard == old(modalCard)
      ensures Snapshot() == Apply(old(Snapshot()), EnterCount(parsed))
    {
      numCards := CountInput(parsed);
    }

    /** The "Allow reversed cards" checkbox's change handler. */
    method SetAllowReversed(checked: bool)
      requires Valid()
      modifies this
      ensures Valid()
      ensures allowReversed == checked
      ensures numCards == old(numCards) && drawnCards == old(drawnCards)
      ensures selectedSpread == old(selectedSpread) && modalCard == old(modalCard)
      ensures Snapshot() == Apply(old(Snapshot()), CheckReversed(checked))
    {
      allowReversed := checked;
    }
  }
}
