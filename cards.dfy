/**
 * The cards of the static dataset and the annotated copies that a draw produces.
 *
 * A dataset card is a read-only record; a drawn card is that record's fields spread
 * into a new object (`{...card, reversed, position}`) with two fields added.
 */
module Cards {
  import opened Options

  /** The two interpretation lists of a card; either may be absent in the dataset. */
  datatype Meanings = Meanings(light: Option<seq<string>>, shadow: Option<seq<string>>)

  /** One card of the dataset, with the optional fields the dataset has on some cards only. */
  datatype Card = Card(
    name: string,
    number: string,
    arcana: string,
    suit: Option<string>,
    img: string,
    keywords: Option<seq<string>>,
    fortuneTelling: Option<seq<string>>,
    meanings: Option<Meanings>,
    archetype: Option<string>,
    elemental: Option<string>,
    mythicalSpiritual: Option<string>,
    questionsToAsk: Option<seq<string>>)

  /** A drawn card: every field of a dataset card, plus `reversed` and `position`. */
  datatype DrawnCard = DrawnCard(
    name: string,
    number: string,
    arcana: string,
    suit: Option<string>,
    img: string,
    keywords: Option<seq<string>>,
    fortuneTelling: Option<seq<string>>,
    meanings: Option<Meanings>,
    archetype: Option<string>,
    elemental: Option<string>,
    mythicalSpiritual: Option<string>,
    questionsToAsk: Option<seq<string>>,
    reversed: bool,
    position: Option<string>)
  {
    /** The dataset card this drawn card was copied from: all fields but the two added ones. */
    function Base(): Card {
      Card(name, number, arcana, suit, img, keywords, fortuneTelling, meanings,
           archetype, elemental, mythicalSpiritual, questionsToAsk)
    }
  }

  /** `{...c, reversed, position}`: copy every field of `c` and add the two annotations. */
  function Annotate(c: Card, reversed: bool, position: Option<string>): (d: DrawnCard)
    ensures d.Base() == c
    ensures d.reversed == reversed && d.position == position
  {
    DrawnCard(c.name, c.number, c.arcana, c.suit, c.img, c.keywords, c.fortuneTelling,
              c.meanings, c.archetype, c.elemental, c.mythicalSpiritual, c.questionsToAsk,
              reversed, position)
  }

  /** A drawn card carries nothing beyond its source card and the two annotations. */
  lemma AnnotateBase(d: DrawnCard)
    ensures Annotate(d.Base(), d.reversed, d.position) == d
  {
  }

  /** Two drawn cards copied from different dataset cards are different. */
  lemma AnnotateInjective(c1: Card, c2: Card, r1: bool, r2: bool, p1: Option<string>, p2: Option<string>)
    ensures Annotate(c1, r1, p1) == Annotate(c2, r2, p2) <==> c1 == c2 && r1 == r2 && p1 == p2
  {
  }
}
