/**
 * The simpler HubSpot contacts table: a search on the names, email and
 * company that an empty term switches off, the lifecycle-stage select,
 * and the stage badge's label and colour.
 */
module HubSpotContactsTable {
  import opened Wrappers
  import opened Text
  import opened HubSpotContact
  import Seqs

  /** `!searchTerm ||` one of the four fields contains the term, up to case. */
  predicate MatchesSearch(c: Contact, term: string) {
    term == "" || FieldHas(c.firstname, term) || FieldHas(c.lastname, term)
    || FieldHas(c.email, term) || FieldHas(c.company, term)
  }

  function Keeps(term: string, stageFilter: string): Contact -> bool {
    (c: Contact) => MatchesSearch(c, term) && StageMatches(c, stageFilter)
  }

  function ByStage(stageFilter: string): Contact -> bool {
    (c: Contact) => StageMatches(c, stageFilter)
  }

  /** `filteredContacts` */
  function FilteredContacts(contacts: seq<Contact>, term: string, stageFilter: string): (r: seq<Contact>)
    ensures |r| <= |contacts|
  {
    Seqs.Filter(Keeps(term, stageFilter), contacts)
  }

  /** The table shows an order-preserving selection of the contacts, and a contact is in it exactly when it passes both tests. */
  lemma FilteredContactsSelect(contacts: seq<Contact>, term: string, stageFilter: string, c: Contact)
    ensures Seqs.SubsequenceOf(FilteredContacts(contacts, term, stageFilter), contacts)
    ensures c in FilteredContacts(contacts, term, stageFilter) <==>
              c in contacts && MatchesSearch(c, term) && StageMatches(c, stageFilter)
  {
    Seqs.FilterIsSubsequence(Keeps(term, stageFilter), contacts);
    Seqs.FilterMembers(Keeps(term, stageFilter), contacts, c);
  }

  /** An empty search keeps every contact, subject only to the stage select. */
  lemma EmptyTermKeepsStageMatches(contacts: seq<Contact>, stageFilter: string)
    ensures FilteredContacts(contacts, "", stageFilter) == Seqs.Filter(ByStage(stageFilter), contacts)
    ensures stageFilter == "all" ==> FilteredContacts(contacts, "", stageFilter) == contacts
  {
    Seqs.FilterSame(Keeps("", stageFilter), ByStage(stageFilter), contacts);
    if stageFilter == "all" {
      Seqs.FilterAll(ByStage(stageFilter), contacts);
    }
  }

  /** The phone is never searched: a contact passes or fails whatever its phone. */
  lemma PhoneNeverSearched(c: Contact, phone: Option<string>, term: string, stageFilter: string)
    ensures Keeps(term, stageFilter)(c.(phone := phone)) == Keeps(term, stageFilter)(c)
  {
  }

  /** A non-empty term passes exactly the contacts one of whose four fields contains it, up to case. */
  lemma NonEmptyTermSearchesFourFields(c: Contact, term: string)
    requires term != ""
    ensures MatchesSearch(c, term) <==>
              exists f :: f in [c.firstname, c.lastname, c.email, c.company] && FieldHas(f, term)
  {
    var fs := [c.firstname, c.lastname, c.email, c.company];
    assert fs[0] == c.firstname && fs[1] == c.lastname && fs[2] == c.email && fs[3] == c.company;
  }

  const Grey := "bg-gray-100 text-gray-800"

  /** The badge colours of the seven stages by their lower-case names. */
  function KnownStageColor(lowered: string): Option<string> {
    match lowered
    case "subscriber" => Some("bg-blue-100 text-blue-800")
    case "lead" => Some("bg-yellow-100 text-yellow-800")
    case "marketingqualifiedlead" => Some("bg-orange-100 text-orange-800")
    case "salesqualifiedlead" => Some("bg-purple-100 text-purple-800")
    case "opportunity" => Some("bg-green-100 text-green-800")
    case "customer" => Some("bg-emerald-100 text-emerald-800")
    case "evangelist" => Some("bg-pink-100 text-pink-800")
    case _ => None
  }

  /** `getLifecycleStageColor`: the table's colour, else grey. */
  function StageColor(stage: Option<string>): (r: string)
    ensures KnownStageColor(Normalized(stage)).None? ==> r == Grey
    ensures KnownStageColor(Normalized(stage)).Some? ==> r == KnownStageColor(Normalized(stage)).value
  {
    KnownStageColor(Normalized(stage)).GetOr(Grey)
  }

  /**
   * The two tables cover the same stages: a stage gets its own colour
   * exactly when it gets its own label, and any other stage shows grey
   * under its own name (or "Unknown" when it is missing).
   */
  lemma LabelAndColorAgree(stage: Option<string>)
    ensures KnownStageColor(Normalized(stage)).Some? <==> KnownStageLabel(Normalized(stage)).Some?
    ensures StageColor(stage) == Grey <==> KnownStageLabel(Normalized(stage)).None?
    ensures KnownStageLabel(Normalized(stage)).None? ==> StageLabel(stage) == OrUnknown(stage)
  {
  }

  /** Labels and colours ignore case: stages that lower-case alike look alike. */
  lemma LookupIgnoresCase(a: string, b: string)
    requires ToLower(a) == ToLower(b)
    requires KnownStageLabel(ToLower(a)).Some?
    ensures StageLabel(Some(a)) == StageLabel(Some(b))
    ensures StageColor(Some(a)) == StageColor(Some(b))
  {
  }
}
