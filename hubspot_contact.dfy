/**
 * The HubSpot contact record the contact components share, with the
 * helpers they all use: a property's `|| ''` default, a case-insensitive
 * search on one property, the lifecycle-stage filter, the list of stages
 * for the filter's options, and the total shown in the header.
 */
module HubSpotContact {
  import opened Wrappers
  import opened Text
  import Seqs

  /**
   * A contact's properties. A property HubSpot leaves out is `None`; one
   * sent as the empty string is `Some("")`, which `?.` reads like any
   * other text and `||` treats as missing. Dates are timestamps, `None`
   * when missing or empty.
   */
  datatype Contact = Contact(
    id: string,
    email: Option<string>,
    firstname: Option<string>,
    lastname: Option<string>,
    company: Option<string>,
    phone: Option<string>,
    lifecyclestage: Option<string>,
    leadStatus: Option<string>,
    createdate: Option<int>,
    lastmodifieddate: Option<int>)

  /** `value || ''`. */
  function OrEmpty(value: Option<string>): string {
    value.GetOr("")
  }

  /** `field?.toLowerCase().includes(term.toLowerCase())`: a missing field never matches. */
  predicate FieldHas(field: Option<string>, term: string) {
    field.Some? && Contains(ToLower(field.value), ToLower(term))
  }

  /** The stage select: "all", or the lifecycle stage equal to it up to case. */
  predicate StageMatches(c: Contact, stageFilter: string) {
    stageFilter == "all" || (c.lifecyclestage.Some? && ToLower(c.lifecyclestage.value) == ToLower(stageFilter))
  }

  /** Every string contains the empty string. */
  lemma ContainsEmpty(s: string)
    ensures Contains(s, "")
  {
  }

  /** The stages the contacts have, in order, skipping the ones that are missing or empty (`filter(Boolean)`). */
  function PresentStages(contacts: seq<Contact>): (r: seq<string>)
    ensures |r| <= |contacts|
  {
    if |contacts| == 0 then []
    else
      var c := contacts[|contacts| - 1];
      PresentStages(contacts[..|contacts| - 1]) + (if c.lifecyclestage.Some? && c.lifecyclestage.value != "" then [c.lifecyclestage.value] else [])
  }

  /** `Array.from(new Set(contacts.map(c => c.properties.lifecyclestage).filter(Boolean)))` */
  function UniqueStages(contacts: seq<Contact>): seq<string> {
    Seqs.Dedup(PresentStages(contacts))
  }

  /** A stage is present exactly when it is not empty and some contact has it. */
  lemma {:induction false} PresentStagesAre(contacts: seq<Contact>, stage: string)
    ensures stage in PresentStages(contacts) <==> stage != "" && exists i :: 0 <= i < |contacts| && contacts[i].lifecyclestage == Some(stage)
    decreases |contacts|
  {
    if |contacts| > 0 {
      var init := contacts[..|contacts| - 1];
      PresentStagesAre(init, stage);
      if stage != "" && exists i :: 0 <= i < |contacts| && contacts[i].lifecyclestage == Some(stage) {
        var i :| 0 <= i < |contacts| && contacts[i].lifecyclestage == Some(stage);
        if i < |init| {
          assert init[i] == contacts[i];
        }
      }
    }
  }

  /**
   * The stage options hold each non-empty stage some contact has exactly
   * once, in the order in which the stages first appear.
   */
  lemma UniqueStagesAreFirstAppearances(contacts: seq<Contact>, stage: string)
    ensures stage in UniqueStages(contacts) <==> stage != "" && exists i :: 0 <= i < |contacts| && contacts[i].lifecyclestage == Some(stage)
    ensures Seqs.Distinct(UniqueStages(contacts))
    ensures forall x :: x in UniqueStages(contacts) ==> x in PresentStages(contacts)
    ensures var u, p := UniqueStages(contacts), PresentStages(contacts);
            forall i, j :: 0 <= i < j < |u| ==> Seqs.FirstIndex(p, u[i]) < Seqs.FirstIndex(p, u[j])
  {
    Seqs.DedupKeepsFirstOccurrences(PresentStages(contacts));
    PresentStagesAre(contacts, stage);
  }

  /** `totalContactsCount || contactsCount || 0`: a count of 0 is falsy and falls through. */
  function TotalContacts(totalContactsCount: Option<int>, contactsCount: Option<int>): (r: int)
    ensures r == 0 || Some(r) == totalContactsCount || Some(r) == contactsCount
    ensures totalContactsCount.Some? && totalContactsCount.value != 0 ==> r == totalContactsCount.value
  {
    if totalContactsCount.Some? && totalContactsCount.value != 0 then totalContactsCount.value
    else if contactsCount.Some? && contactsCount.value != 0 then contactsCount.value
    else 0
  }

  /** The label tables of the components: the seven HubSpot lifecycle stages by their lower-case names. */
  function KnownStageLabel(lowered: string): Option<string> {
    match lowered
    case "subscriber" => Some("Subscriber")
    case "lead" => Some("Lead")
    case "marketingqualifiedlead" => Some("MQL")
    case "salesqualifiedlead" => Some("SQL")
    case "opportunity" => Some("Opportunity")
    case "customer" => Some("Customer")
    case "evangelist" => Some("Evangelist")
    case _ => None
  }

  /** `stage?.toLowerCase() || 'unknown'`: a missing or empty stage is looked up as "unknown". */
  function Normalized(stage: Option<string>): string {
    if stage.Some? && stage.value != "" then ToLower(stage.value) else "unknown"
  }

  /** `stage || 'Unknown'` */
  function OrUnknown(stage: Option<string>): string {
    if stage.Some? && stage.value != "" then stage.value else "Unknown"
  }

  /**
   * `getLifecycleStageLabel` of the contacts table and of the charts: the
   * table's label, else the stage as given, else "Unknown".
   */
  function StageLabel(stage: Option<string>): (r: string)
    ensures r != ""
    ensures KnownStageLabel(Normalized(stage)).Some? ==> r == KnownStageLabel(Normalized(stage)).value
    ensures KnownStageLabel(Normalized(stage)).None? ==> r == OrUnknown(stage)
  {
    match KnownStageLabel(Normalized(stage))
    case Some(known) => known
    case None => OrUnknown(stage)
  }
}
