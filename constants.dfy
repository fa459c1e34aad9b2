/** The fixed enumerations, display labels and limits shared by the search
    form and the API (lib/constants.ts). */
module Constants {

  /** The seven EPC bands, most efficient first. */
  const ENERGY_RATINGS: seq<string> := ["A", "B", "C", "D", "E", "F", "G"]

  /** The fuel values a filter may carry. */
  const FUEL_TYPES: seq<string> :=
    ["mains gas (not community)", "electricity", "oil", "LPG", "solid fuel"]

  const ENERGY_RATING_LABELS: map<string, string> := map[
    "A" := "A (Most Efficient)",
    "B" := "B (Very Efficient)",
    "C" := "C (Efficient)",
    "D" := "D (Fairly Efficient)",
    "E" := "E (Poor)",
    "F" := "F (Very Poor)",
    "G" := "G (Least Efficient)"
  ]

  const FUEL_TYPE_LABELS: map<string, string> := map[
    "mains gas (not community)" := "Mains Gas",
    "electricity" := "Electricity",
    "oil" := "Oil",
    "LPG" := "LPG",
    "solid fuel" := "Solid Fuel"
  ]

  const DEFAULT_PAGE_SIZE: nat := 50
  const MAX_PAGE_SIZE: nat := 100
  const DEFAULT_EXPORT_LIMIT: nat := 100
  const MAX_EXPORT_LIMIT: nat := 10000

  predicate Distinct(xs: seq<string>) {
    forall i, j :: 0 <= i < j < |xs| ==> xs[i] != xs[j]
  }

  /** The bands are the seven consecutive letters A to G, in that order. */
  lemma EnergyRatingsAreAToG()
    ensures |ENERGY_RATINGS| == 7
    ensures forall i :: 0 <= i < 7 ==> ENERGY_RATINGS[i] == [('A' as int + i) as char]
    ensures Distinct(ENERGY_RATINGS)
  {
  }

  /** Five distinct fuel values. */
  lemma FuelTypesDistinct()
    ensures |FUEL_TYPES| == 5 && Distinct(FUEL_TYPES)
  {
  }

  /** Every band has a label, no other key has one, and each label begins
      with its own band letter. */
  lemma RatingLabelsCoverRatings()
    ensures ENERGY_RATING_LABELS.Keys == set r | r in ENERGY_RATINGS
    ensures forall r :: r in ENERGY_RATINGS ==> r <= ENERGY_RATING_LABELS[r]
  {
  }

  /** Every fuel value has a label, and no other key has one. */
  lemma FuelLabelsCoverFuelTypes()
    ensures FUEL_TYPE_LABELS.Keys == set f | f in FUEL_TYPES
  {
  }

  /** Each default lies within its limit. */
  lemma DefaultsWithinLimits()
    ensures 1 <= DEFAULT_PAGE_SIZE <= MAX_PAGE_SIZE
    ensures 1 <= DEFAULT_EXPORT_LIMIT <= MAX_EXPORT_LIMIT
  {
  }
}
