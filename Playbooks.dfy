/**
 * The playbook catalog as the incident page sees it: a map from incident category to an
 * ordered list of remediation steps, with the fallback category "Unknown".
 * The catalog's contents are not part of this model; it is a parameter.
 */
module Playbooks {

  /** One remediation step. The step's icon is presentation and is left out. */
  datatype Step = Step(id: string, title: string, description: string)

  type Playbook = seq<Step>

  type Catalog = map<string, Playbook>

  const FallbackCategory: string := "Unknown"

  /**
   * What the page needs of the catalog: the fallback key exists, and no list is empty
   * (the first step of whichever list is chosen is read unconditionally).
   */
  predicate WellFormed(catalog: Catalog)
  {
    FallbackCategory in catalog
    && forall category :: category in catalog ==> |catalog[category]| > 0
  }

  /**
   * `PLAYBOOKS[type] || PLAYBOOKS['Unknown']`: the category is matched exactly
   * (case-sensitively); anything else, the empty string included, gets the fallback list.
   */
  function Resolve(catalog: Catalog, category: string): (playbook: Playbook)
    requires WellFormed(catalog)
    ensures |playbook| > 0
    ensures playbook in catalog.Values
  {
    if category in catalog then catalog[category] else catalog[FallbackCategory]
  }
}
