/**
 * The static catalog of spreads: named layouts with their ordered position labels.
 * An empty label list means the spread draws a user-chosen number of unlabelled cards.
 */
module Spreads {

  /** A spread definition: display name, ordered position labels, and a layout tag used only for display. */
  datatype Spread = Spread(name: string, positions: seq<string>, layout: string)

  /** The eight spreads, in the order the spread selector lists them. */
  const Catalog: seq<Spread> := [
    Spread("None", [], "grid"),
    Spread("Single Card", ["Present Situation"], "single"),
    Spread("Past-Present-Future", ["Past", "Present", "Future"], "horizontal"),
    Spread("Mind-Body-Spirit", ["Mind", "Body", "Spirit"], "triangle"),
    Spread("Situation-Action-Outcome", ["Situation", "Action", "Outcome"], "horizontal"),
    Spread("Celtic Cross",
           ["Present", "Challenge", "Past", "Future", "Above", "Below", "Advice",
            "External Influences", "Hopes/Fears", "Outcome"],
           "celtic-cross"),
    Spread("Horseshoe Spread",
           ["Past", "Present", "Hidden Influences", "Obstacles", "Environment", "Action to Take", "Outcome"],
           "horseshoe"),
    Spread("Relationship Spread",
           ["You", "The Other Person", "The Connection", "Challenges", "Potential"],
           "relationship")
  ]

  /** Index of the free-count spread "None", the initial selection. */
  const FreeCount: nat := 0

  /** Index of the Celtic Cross spread. */
  const CelticCross: nat := 5

  /** Every position label in the catalog is a non-empty string, so none of them is falsy in JavaScript. */
  predicate LabelsNonEmpty(s: Spread) {
    forall i :: 0 <= i < |s.positions| ==> |s.positions[i]| > 0
  }

  /** The catalog's shape: eight spreads, all labels non-empty, and "None" is the only free-count spread. */
  lemma CatalogShape()
    ensures |Catalog| == 8
    ensures forall k :: 0 <= k < |Catalog| ==> LabelsNonEmpty(Catalog[k])
    ensures forall k :: 0 <= k < |Catalog| ==> (|Catalog[k].positions| == 0 <==> k == FreeCount)
    ensures Catalog[FreeCount].name == "None"
    ensures Catalog[CelticCross].name == "Celtic Cross" && |Catalog[CelticCross].positions| == 10
  {
  }
}
