/**
 * The HubSpot analytics panel: one pass over the contacts counting them
 * by lifecycle stage and by company, the count of companies with more
 * than one contact, the recent-contact and lead counts over creation
 * timestamps, and the stage badge's label and colour. The starts of the
 * current day, week and month come from the clock and are parameters.
 */
module HubSpotAnalytics {
  import opened Wrappers
  import opened Text
  import opened HubSpotContact
  import opened Tallies
  import Seqs

  // ---------------------------------------------------------------------
  // Counting by stage and by company
  // ---------------------------------------------------------------------

  /** `lifecyclestage || "unknown"`: the raw stage, as received. */
  function StageKey(c: Contact): (k: string)
    ensures k != ""
  {
    if c.lifecyclestage.Some? && c.lifecyclestage.value != "" then c.lifecyclestage.value else "unknown"
  }

  /** `company?.trim()`, when that is not empty. */
  function CompanyKey(c: Contact): (k: Option<string>)
    ensures k.Some? ==> k.value != "" && IsTrimmed(k.value)
  {
    if c.company.Some? && Trim(c.company.value) != "" then
      TrimTrims(c.company.value);
      Some(Trim(c.company.value))
    else None
  }

  /** The stage key of each contact, in order. */
  function StageKeys(contacts: seq<Contact>): (r: seq<string>)
    ensures |r| == |contacts|
  {
    if |contacts| == 0 then [] else StageKeys(contacts[..|contacts| - 1]) + [StageKey(contacts[|contacts| - 1])]
  }

  /** The company key of each contact that has one, in order. */
  function CompanyKeys(contacts: seq<Contact>): (r: seq<string>)
    ensures |r| <= |contacts|
  {
    if |contacts| == 0 then []
    else
      var k := CompanyKey(contacts[|contacts| - 1]);
      CompanyKeys(contacts[..|contacts| - 1]) + (if k.Some? then [k.value] else [])
  }

  /**
   * The `forEach` loop: `lifecycleDistribution` counts every contact under
   * its stage key, and `companyCounts` every contact with a company under
   * the trimmed name.
   */
  method CountContacts(contacts: seq<Contact>) returns (lifecycleDistribution: map<string, nat>, companyCounts: map<string, nat>)
    ensures lifecycleDistribution == Tally(StageKeys(contacts))
    ensures companyCounts == Tally(CompanyKeys(contacts))
  {
    lifecycleDistribution, companyCounts := map[], map[];
    var i := 0;
    while i < |contacts|
      invariant 0 <= i <= |contacts|
      invariant lifecycleDistribution == Tally(StageKeys(contacts[..i]))
      invariant companyCounts == Tally(CompanyKeys(contacts[..i]))
    {
      var contact := contacts[i];
      CountStep(contacts, i);
      var stage := StageKey(contact);
      lifecycleDistribution := Bump(lifecycleDistribution, stage);
      var company := CompanyKey(contact);
      if company.Some? {
        companyCounts := Bump(companyCounts, company.value);
      }
      i := i + 1;
    }
    assert contacts[..i] == contacts;
  }

  /** What counting the contact at `i` adds to the counts over the contacts before it. */
  lemma CountStep(contacts: seq<Contact>, i: nat)
    requires i < |contacts|
    ensures Tally(StageKeys(contacts[..i + 1])) == Bump(Tally(StageKeys(contacts[..i])), StageKey(contacts[i]))
    ensures CompanyKey(contacts[i]).Some? ==>
              Tally(CompanyKeys(contacts[..i + 1])) == Bump(Tally(CompanyKeys(contacts[..i])), CompanyKey(contacts[i]).value)
    ensures CompanyKey(contacts[i]).None? ==> Tally(CompanyKeys(contacts[..i + 1])) == Tally(CompanyKeys(contacts[..i]))
  {
    var prefix := contacts[..i + 1];
    assert prefix[..i] == contacts[..i] && prefix[i] == contacts[i];
    assert StageKeys(prefix) == StageKeys(contacts[..i]) + [StageKey(contacts[i])];
    TallySnoc(StageKeys(contacts[..i]), StageKey(contacts[i]));
    var company := CompanyKey(contacts[i]);
    if company.Some? {
      assert CompanyKeys(prefix) == CompanyKeys(contacts[..i]) + [company.value];
      TallySnoc(CompanyKeys(contacts[..i]), company.value);
    } else {
      assert CompanyKeys(prefix) == CompanyKeys(contacts[..i]);
    }
  }

  /** A stage key is counted exactly when some contact has it. */
  lemma {:induction false} StageKeysAre(contacts: seq<Contact>, k: string)
    ensures k in StageKeys(contacts) <==> exists i :: 0 <= i < |contacts| && StageKey(contacts[i]) == k
    decreases |contacts|
  {
    if |contacts| > 0 {
      var init := contacts[..|contacts| - 1];
      StageKeysAre(init, k);
      if exists i :: 0 <= i < |contacts| && StageKey(contacts[i]) == k {
        var i :| 0 <= i < |contacts| && StageKey(contacts[i]) == k;
        if i < |init| {
          assert init[i] == contacts[i];
        }
      }
    }
  }

  /**
   * Every contact is counted exactly once: the distribution's keys are the
   * stage keys the contacts have, each value is the number of contacts
   * with that key, and the values add up to the number of contacts.
   */
  lemma DistributionCountsEachContactOnce(contacts: seq<Contact>, k: string)
    ensures k in Tally(StageKeys(contacts)) <==> exists i :: 0 <= i < |contacts| && StageKey(contacts[i]) == k
    ensures k in Tally(StageKeys(contacts)) ==> Tally(StageKeys(contacts))[k] == Occurrences(StageKeys(contacts), k) > 0
    ensures forall s :: s in Seqs.Dedup(StageKeys(contacts)) ==> s in Tally(StageKeys(contacts))
    ensures SumOver(Seqs.Dedup(StageKeys(contacts)), Tally(StageKeys(contacts))) == |contacts|
  {
    TallyCounts(StageKeys(contacts));
    StageKeysAre(contacts, k);
    TallySumsToLength(StageKeys(contacts));
  }

  /** A company is counted exactly when some contact's company trims to it. */
  lemma {:induction false} CompanyKeysAre(contacts: seq<Contact>, name: string)
    ensures name in CompanyKeys(contacts) <==> exists i :: 0 <= i < |contacts| && CompanyKey(contacts[i]) == Some(name)
    decreases |contacts|
  {
    if |contacts| > 0 {
      var init := contacts[..|contacts| - 1];
      CompanyKeysAre(init, name);
      if exists i :: 0 <= i < |contacts| && CompanyKey(contacts[i]) == Some(name) {
        var i :| 0 <= i < |contacts| && CompanyKey(contacts[i]) == Some(name);
        if i < |init| {
          assert init[i] == contacts[i];
        }
      }
    }
  }

  /** `Object.values(companyCounts).filter(count => count > 1).length` */
  function CompaniesWithMultipleContacts(companyCounts: map<string, nat>): (n: nat)
    ensures n <= |companyCounts.Keys|
  {
    var r := Repeated(companyCounts);
    assert r <= companyCounts.Keys;
    SubsetCard(r, companyCounts.Keys);
    |r|
  }

  lemma SubsetCard<K>(a: set<K>, b: set<K>)
    requires a <= b
    ensures |a| <= |b|
  {
    if a != {} {
      var x :| x in a;
      SubsetCard(a - {x}, b - {x});
    }
  }

  /**
   * A company counts as having several contacts exactly when at least two
   * contacts' company names trim to it; names that differ only in
   * surrounding white space are the same company.
   */
  lemma MultipleContactsMeansTwoContacts(contacts: seq<Contact>, name: string)
    ensures name in Repeated(Tally(CompanyKeys(contacts))) <==> Occurrences(CompanyKeys(contacts), name) > 1
    ensures name in Tally(CompanyKeys(contacts)) <==> exists i :: 0 <= i < |contacts| && CompanyKey(contacts[i]) == Some(name)
  {
    RepeatedKeys(CompanyKeys(contacts), name);
    TallyCounts(CompanyKeys(contacts));
    CompanyKeysAre(contacts, name);
  }

  // ---------------------------------------------------------------------
  // Recent contacts and leads
  // ---------------------------------------------------------------------

  /** Created at or after `start`; a contact without a creation date never is. */
  function CreatedSince(start: int): Contact -> bool {
    (c: Contact) => c.createdate.Some? && c.createdate.value >= start
  }

  /** `lifecyclestage?.toLowerCase() === "lead"` */
  predicate IsLead(c: Contact) {
    c.lifecyclestage.Some? && ToLower(c.lifecyclestage.value) == "lead"
  }

  function LeadTest(): Contact -> bool {
    (c: Contact) => IsLead(c)
  }

  function LeadSince(start: int): Contact -> bool {
    (c: Contact) => IsLead(c) && c.createdate.Some? && c.createdate.value >= start
  }

  /** `leads` */
  function Leads(contacts: seq<Contact>): seq<Contact> {
    Seqs.Filter(LeadTest(), contacts)
  }

  /** `recentContacts`: the contacts created since the start of the month. */
  function RecentContacts(contacts: seq<Contact>, monthStart: int): nat {
    Seqs.Count(CreatedSince(monthStart), contacts)
  }

  /** `leadsToday`, `leadsThisWeek`, `leadsThisMonth`: the leads created since `start`. */
  function LeadsSince(contacts: seq<Contact>, start: int): nat {
    Seqs.Count(CreatedSince(start), Leads(contacts))
  }

  /** Counting the leads created since `start` is counting the contacts that are both. */
  lemma LeadsSinceIsOneFilter(contacts: seq<Contact>, start: int)
    ensures LeadsSince(contacts, start) == Seqs.Count(LeadSince(start), contacts)
  {
    Seqs.FilterFilter(LeadTest(), CreatedSince(start), LeadSince(start), contacts);
  }

  /** The leads counted since `start` are the contacts that are leads and were created since then. */
  lemma LeadsSinceAreCreatedLeads(contacts: seq<Contact>, start: int, c: Contact)
    ensures c in Seqs.Filter(CreatedSince(start), Leads(contacts)) <==>
              c in contacts && IsLead(c) && c.createdate.Some? && c.createdate.value >= start
  {
    Seqs.FilterFilter(LeadTest(), CreatedSince(start), LeadSince(start), contacts);
    Seqs.FilterMembers(LeadSince(start), contacts, c);
  }

  /** A contact without a creation date is never recent and never a lead of any period. */
  lemma UndatedNeverCounted(contacts: seq<Contact>, start: int, c: Contact)
    requires c.createdate.None?
    ensures c !in Seqs.Filter(CreatedSince(start), contacts)
    ensures c !in Seqs.Filter(CreatedSince(start), Leads(contacts))
  {
    Seqs.FilterMembers(CreatedSince(start), contacts, c);
    Seqs.FilterMembers(CreatedSince(start), Leads(contacts), c);
  }

  /**
   * Since the day starts no earlier than the week or the month, and the
   * leads are some of the contacts:
   * leadsToday <= leadsThisWeek and leadsToday <= leadsThisMonth <= recentContacts.
   */
  lemma LeadCountsOrdered(contacts: seq<Contact>, today: int, weekStart: int, monthStart: int)
    requires weekStart <= today && monthStart <= today
    ensures LeadsSince(contacts, today) <= LeadsSince(contacts, weekStart)
    ensures LeadsSince(contacts, today) <= LeadsSince(contacts, monthStart)
    ensures LeadsSince(contacts, monthStart) <= RecentContacts(contacts, monthStart)
  {
    var leads := Leads(contacts);
    Seqs.CountMonotone(CreatedSince(today), CreatedSince(weekStart), leads);
    Seqs.CountMonotone(CreatedSince(today), CreatedSince(monthStart), leads);
    LeadsSinceIsOneFilter(contacts, monthStart);
    Seqs.CountMonotone(LeadSince(monthStart), CreatedSince(monthStart), contacts);
  }

  // ---------------------------------------------------------------------
  // The panel's figures
  // ---------------------------------------------------------------------

  datatype Analytics = Analytics(
    totalContacts: int,
    contactsCount: nat,
    lifecycleDistribution: map<string, nat>,
    recentContacts: nat,
    companiesWithMultipleContacts: nat,
    leadsToday: nat,
    leadsThisWeek: nat,
    leadsThisMonth: nat)

  /**
   * What a successful response sets: the counted figures over the contacts
   * received, with the day, week and month starts read from the clock.
   */
  method ComputeAnalytics(contacts: seq<Contact>, totalContactsCount: Option<int>, contactsCountField: Option<int>,
                          today: int, weekStart: int, monthStart: int)
    returns (a: Analytics)
    ensures a.totalContacts == TotalContacts(totalContactsCount, contactsCountField)
    ensures a.contactsCount == |contacts|
    ensures a.lifecycleDistribution == Tally(StageKeys(contacts))
    ensures a.companiesWithMultipleContacts == |Repeated(Tally(CompanyKeys(contacts)))|
    ensures a.recentContacts == RecentContacts(contacts, monthStart)
    ensures a.leadsToday == LeadsSince(contacts, today)
    ensures a.leadsThisWeek == LeadsSince(contacts, weekStart)
    ensures a.leadsThisMonth == LeadsSince(contacts, monthStart)
  {
    var lifecycleDistribution, companyCounts := CountContacts(contacts);
    a := Analytics(
      TotalContacts(totalContactsCount, contactsCountField),
      |contacts|,
      lifecycleDistribution,
      RecentContacts(contacts, monthStart),
      CompaniesWithMultipleContacts(companyCounts),
      LeadsSince(contacts, today),
      LeadsSince(contacts, weekStart),
      LeadsSince(contacts, monthStart));
  }

  // ---------------------------------------------------------------------
  // Labels and colours
  // ---------------------------------------------------------------------

  /** `labels[stage.toLowerCase()] || stage`, over a table that also maps "unknown" to "Unknown". */
  function StageLabel(stage: string): (r: string)
    ensures KnownStageLabel(ToLower(stage)).Some? ==> r == KnownStageLabel(ToLower(stage)).value
    ensures KnownStageLabel(ToLower(stage)).None? && ToLower(stage) != "unknown" ==> r == stage
  {
    if KnownStageLabel(ToLower(stage)).Some? then KnownStageLabel(ToLower(stage)).value
    else if ToLower(stage) == "unknown" then "Unknown"
    else stage
  }

  const Grey := "bg-gray-500"

  function KnownStageColor(lowered: string): Option<string> {
    match lowered
    case "subscriber" => Some("bg-blue-500")
    case "lead" => Some("bg-yellow-500")
    case "marketingqualifiedlead" => Some("bg-orange-500")
    case "salesqualifiedlead" => Some("bg-purple-500")
    case "opportunity" => Some("bg-green-500")
    case "customer" => Some("bg-emerald-500")
    case "evangelist" => Some("bg-pink-500")
    case "unknown" => Some(Grey)
    case _ => None
  }

  /** `colors[stage.toLowerCase()] || "bg-gray-500"` */
  function StageColor(stage: string): (r: string)
    ensures KnownStageColor(ToLower(stage)).Some? ==> r == KnownStageColor(ToLower(stage)).value
    ensures KnownStageColor(ToLower(stage)).None? ==> r == Grey
  {
    KnownStageColor(ToLower(stage)).GetOr(Grey)
  }

  /**
   * Every key of the distribution gets a label that is never empty, and the
   * colour is grey exactly for the stages outside the seven HubSpot ones;
   * the "unknown" key the count uses reads "Unknown".
   */
  lemma DistributionKeysDisplay(stage: string)
    ensures stage != "" ==> StageLabel(stage) != ""
    ensures StageColor(stage) == Grey <==> KnownStageLabel(ToLower(stage)).None?
    ensures StageLabel("unknown") == "Unknown"
  {
    assert ToLower("unknown") == "unknown";
  }
}
