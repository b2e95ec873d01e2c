/**
 * The HubSpot charts dashboard's two distributions: every contact is
 * labelled (by lifecycle stage or by lead status), the labels are counted
 * into a dictionary, and its entries become `{name, value}` slices sorted
 * by value, largest first. A JavaScript object is modelled as the map of
 * counts together with its keys in insertion order (integer-like keys,
 * which JavaScript lists first, are not treated apart).
 */
module HubSpotCharts {
  import opened Wrappers
  import opened Text
  import opened HubSpotContact
  import opened Tallies
  import opened StableSort
  import Seqs

  // ---------------------------------------------------------------------
  // Labels
  // ---------------------------------------------------------------------

  /** The lead-status table, by lower-case name with white space replaced by "_". */
  function KnownLeadStatus(normalized: string): Option<string> {
    match normalized
    case "new" => Some("New")
    case "open" => Some("Open")
    case "in_progress" => Some("In Progress")
    case "open_deal" => Some("Open Deal")
    case "unqualified" => Some("Unqualified")
    case "attempted_to_contact" => Some("Attempted to Contact")
    case "connected" => Some("Connected")
    case "bad_timing" => Some("Bad Timing")
    case _ => None
  }

  /** `.replace(/\s/g, "_")` */
  function Underscored(s: string): (r: string)
    ensures |r| == |s|
    ensures forall i :: 0 <= i < |s| ==> (IsWhite(s[i]) ==> r[i] == '_') && (!IsWhite(s[i]) ==> r[i] == s[i])
  {
    seq(|s|, i requires 0 <= i < |s| => if IsWhite(s[i]) then '_' else s[i])
  }

  /** `status?.toLowerCase().replace(/\s/g, "_") || "unknown"` */
  function NormalizedStatus(status: Option<string>): string {
    if status.Some? && status.value != "" then Underscored(ToLower(status.value)) else "unknown"
  }

  /** `getLeadStatusLabel`: the table's label, else the status as given, else "Unknown". */
  function LeadStatusLabel(status: Option<string>): (r: string)
    ensures r != ""
    ensures KnownLeadStatus(NormalizedStatus(status)).Some? ==> r == KnownLeadStatus(NormalizedStatus(status)).value
    ensures KnownLeadStatus(NormalizedStatus(status)).None? ==> r == OrUnknown(status)
  {
    match KnownLeadStatus(NormalizedStatus(status))
    case Some(known) => known
    case None => OrUnknown(status)
  }

  /** Statuses that differ only in case or in which white space separates their words get the same label. */
  lemma LeadStatusIgnoresCaseAndSpacing(a: string, b: string)
    requires a != "" && b != ""
    requires Underscored(ToLower(a)) == Underscored(ToLower(b))
    requires KnownLeadStatus(Underscored(ToLower(a))).Some?
    ensures LeadStatusLabel(Some(a)) == LeadStatusLabel(Some(b))
  {
  }

  /** The lifecycle chart's label of a contact: its stage, or "unknown", through `getLifecycleStageLabel`. */
  function LifecycleChartLabel(c: Contact): string {
    StageLabel(Some(if c.lifecyclestage.Some? && c.lifecyclestage.value != "" then c.lifecyclestage.value else "unknown"))
  }

  /** The lead-status chart's label of a contact: its `hs_lead_status`, or "unknown", through `getLeadStatusLabel`. */
  function LeadStatusChartLabel(c: Contact): string {
    LeadStatusLabel(Some(if c.leadStatus.Some? && c.leadStatus.value != "" then c.leadStatus.value else "unknown"))
  }

  /** `lifecycleData` labels contacts by stage. */
  function ByStage(): Contact -> string {
    (c: Contact) => LifecycleChartLabel(c)
  }

  /** `leadStatusData` labels contacts by lead status. */
  function ByLeadStatus(): Contact -> string {
    (c: Contact) => LeadStatusChartLabel(c)
  }

  /**
   * The charts count a contact without a stage or status under the key
   * "unknown" before labelling, so its slice is named "unknown" in lower
   * case, not the "Unknown" the label functions give a missing value.
   */
  lemma MissingValuesChartedAsLowerCaseUnknown(c: Contact)
    requires c.lifecyclestage.None? && c.leadStatus.None?
    ensures LifecycleChartLabel(c) == "unknown"
    ensures LeadStatusChartLabel(c) == "unknown"
    ensures StageLabel(c.lifecyclestage) == "Unknown" && LeadStatusLabel(c.leadStatus) == "Unknown"
  {
    assert ToLower("unknown") == "unknown";
    assert Underscored("unknown") == "unknown";
  }

  /** Stages differing only in case are charted under one label. */
  lemma StagesMergeUpToCase(c: Contact, d: Contact)
    requires c.lifecyclestage.Some? && d.lifecyclestage.Some?
    requires ToLower(c.lifecyclestage.value) == ToLower(d.lifecyclestage.value)
    requires KnownStageLabel(ToLower(c.lifecyclestage.value)).Some?
    ensures LifecycleChartLabel(c) == LifecycleChartLabel(d)
  {
  }

  // ---------------------------------------------------------------------
  // Counting
  // ---------------------------------------------------------------------

  /** The label of each contact, in order. */
  function Labels(contacts: seq<Contact>, labelOf: Contact -> string): (r: seq<string>)
    ensures |r| == |contacts|
    ensures forall i :: 0 <= i < |contacts| ==> r[i] == labelOf(contacts[i])
  {
    seq(|contacts|, i requires 0 <= i < |contacts| => labelOf(contacts[i]))
  }

  /** What counting the label at `i` does to the dictionary and its key order. */
  lemma CountStep(ls: seq<string>, i: nat)
    requires i < |ls|
    ensures Tally(ls[..i + 1]) == Bump(Tally(ls[..i]), ls[i])
    ensures ls[i] in Tally(ls[..i]) ==> Seqs.Dedup(ls[..i + 1]) == Seqs.Dedup(ls[..i])
    ensures ls[i] !in Tally(ls[..i]) ==> Seqs.Dedup(ls[..i + 1]) == Seqs.Dedup(ls[..i]) + [ls[i]]
  {
    var prefix := ls[..i + 1];
    assert prefix[..i] == ls[..i] && prefix[i] == ls[i];
    TallySnoc(ls[..i], ls[i]);
    TallyCounts(ls[..i]);
    Seqs.DedupIsSet(ls[..i]);
  }

  /**
   * The `reduce`: `acc[label] = (acc[label] || 0) + 1` for each contact,
   * `keys` being the order in which the object received its keys.
   */
  method CountLabels(contacts: seq<Contact>, labelOf: Contact -> string) returns (acc: map<string, nat>, keys: seq<string>)
    ensures acc == Tally(Labels(contacts, labelOf))
    ensures keys == Seqs.Dedup(Labels(contacts, labelOf))
  {
    ghost var ls := Labels(contacts, labelOf);
    acc, keys := map[], [];
    var i := 0;
    while i < |contacts|
      invariant 0 <= i <= |contacts|
      invariant acc == Tally(ls[..i])
      invariant keys == Seqs.Dedup(ls[..i])
    {
      var name := labelOf(contacts[i]);
      CountStep(ls, i);
      if name !in acc {
        keys := keys + [name];
      }
      acc := Bump(acc, name);
      i := i + 1;
    }
    assert ls[..i] == ls;
  }

  // ---------------------------------------------------------------------
  // Chart data
  // ---------------------------------------------------------------------

  datatype Slice = Slice(name: string, value: nat)

  /** `Object.entries(acc).map(([name, value]) => ({ name, value }))` */
  function Entries(keys: seq<string>, acc: map<string, nat>): (r: seq<Slice>)
    requires forall k :: k in keys ==> k in acc
    ensures |r| == |keys|
    ensures forall i :: 0 <= i < |keys| ==> r[i] == Slice(keys[i], acc[keys[i]])
  {
    seq(|keys|, i requires 0 <= i < |keys| => Slice(keys[i], acc[keys[i]]))
  }

  /** `(a, b) => b.value - a.value`: larger values first, ties in entry order. */
  function ByValue(): Slice -> SortKey {
    (d: Slice) => Num(d.value)
  }

  /** `lifecycleData` and `leadStatusData` for the labels of the contacts. */
  function ChartData(labels: seq<string>): (r: seq<Slice>)
    ensures |r| == |Seqs.Dedup(labels)|
  {
    TallySumsToLength(labels);
    SortBy(Entries(Seqs.Dedup(labels), Tally(labels)), ByValue(), Desc)
  }

  /** Counts the labels, lists the entries, then sorts that array in place. */
  method ChartDataOf(contacts: seq<Contact>, labelOf: Contact -> string) returns (data: seq<Slice>)
    ensures data == ChartData(Labels(contacts, labelOf))
  {
    var acc, keys := CountLabels(contacts, labelOf);
    TallySumsToLength(Labels(contacts, labelOf));
    var entries := Entries(keys, acc);
    var a := new Slice[|entries|](i requires 0 <= i < |entries| => entries[i]);
    assert a[..] == entries;
    SortInPlace(a, ByValue(), Desc);
    data := a[..];
  }

  /** The sum of the slices' values. */
  function Total(s: seq<Slice>): nat {
    if |s| == 0 then 0 else Total(s[..|s| - 1]) + s[|s| - 1].value
  }

  lemma {:induction false} TotalAppend(a: seq<Slice>, b: seq<Slice>)
    ensures Total(a + b) == Total(a) + Total(b)
    decreases |b|
  {
    if |b| > 0 {
      assert (a + b)[..|a + b| - 1] == a + b[..|b| - 1];
      TotalAppend(a, b[..|b| - 1]);
    } else {
      assert a + b == a;
    }
  }

  lemma {:induction false} TotalInsert(t: seq<Slice>, x: Slice, dir: Direction)
    ensures Total(Insert(t, x, ByValue(), dir)) == Total(t) + x.value
    decreases |t|
  {
    if |t| > 0 && Before(ByValue()(x), ByValue()(t[|t| - 1]), dir) {
      var init := t[..|t| - 1];
      TotalInsert(init, x, dir);
      TotalAppend(Insert(init, x, ByValue(), dir), [t[|t| - 1]]);
    } else if |t| > 0 {
      TotalAppend(t, [x]);
    }
  }

  /** Sorting keeps the total. */
  lemma {:induction false} TotalSortBy(s: seq<Slice>, dir: Direction)
    ensures Total(SortBy(s, ByValue(), dir)) == Total(s)
    decreases |s|
  {
    if |s| > 0 {
      TotalSortBy(s[..|s| - 1], dir);
      TotalInsert(SortBy(s[..|s| - 1], ByValue(), dir), s[|s| - 1], dir);
    }
  }

  /** The entries' total is the sum of the counts over the keys. */
  lemma {:induction false} TotalEntries(keys: seq<string>, acc: map<string, nat>)
    requires forall k :: k in keys ==> k in acc
    ensures Total(Entries(keys, acc)) == SumOver(keys, acc)
    decreases |keys|
  {
    if |keys| > 0 {
      var init := keys[..|keys| - 1];
      TotalEntries(init, acc);
      assert Entries(keys, acc)[..|keys| - 1] == Entries(init, acc);
    }
  }

  /** Every contact is in exactly one slice: the values add up to the number of contacts. */
  lemma ChartDataCountsEveryContact(contacts: seq<Contact>, labelOf: Contact -> string)
    ensures Total(ChartData(Labels(contacts, labelOf))) == |contacts|
  {
    var ls := Labels(contacts, labelOf);
    TallySumsToLength(ls);
    TotalSortBy(Entries(Seqs.Dedup(ls), Tally(ls)), Desc);
    TotalEntries(Seqs.Dedup(ls), Tally(ls));
  }

  /** The slices are in descending order of value. */
  lemma ChartDataDescending(labels: seq<string>)
    ensures var r := ChartData(labels); forall i, j :: 0 <= i < j < |r| ==> r[i].value >= r[j].value
  {
    TallySumsToLength(labels);
    var r := ChartData(labels);
    SortBySorted(Entries(Seqs.Dedup(labels), Tally(labels)), ByValue(), Desc);
    forall i, j | 0 <= i < j < |r|
      ensures r[i].value >= r[j].value
    {
      assert !Before(ByValue()(r[j]), ByValue()(r[i]), Desc);
    }
  }

  /** The entries before sorting: one per distinct label, with the number of its occurrences. */
  lemma EntriesAreCounts(labels: seq<string>, d: Slice)
    ensures forall k :: k in Seqs.Dedup(labels) ==> k in Tally(labels)
    ensures d in Entries(Seqs.Dedup(labels), Tally(labels)) <==> d.name in labels && d.value == Occurrences(labels, d.name)
  {
    TallySumsToLength(labels);
    TallyCounts(labels);
    Seqs.DedupIsSet(labels);
    var keys := Seqs.Dedup(labels);
    var entries := Entries(keys, Tally(labels));
    if d in entries {
      var i :| 0 <= i < |entries| && entries[i] == d;
      assert keys[i] == d.name;
    }
    if d.name in labels && d.value == Occurrences(labels, d.name) {
      var i := Seqs.FirstIndex(keys, d.name);
      assert entries[i] == d;
    }
  }

  /** The chart holds the entries, sorted. */
  lemma ChartDataPermutesEntries(labels: seq<string>)
    ensures forall k :: k in Seqs.Dedup(labels) ==> k in Tally(labels)
    ensures multiset(ChartData(labels)) == multiset(Entries(Seqs.Dedup(labels), Tally(labels)))
  {
    TallySumsToLength(labels);
    SortByPermutes(Entries(Seqs.Dedup(labels), Tally(labels)), ByValue(), Desc);
  }

  /**
   * One slice per distinct label, merging every contact with that label:
   * a slice is in the chart exactly when its name is a label and its
   * value the number of contacts with it.
   */
  lemma ChartDataMergesLabels(labels: seq<string>, d: Slice)
    ensures d in ChartData(labels) <==> d.name in labels && d.value == Occurrences(labels, d.name)
  {
    ChartDataPermutesEntries(labels);
    EntriesAreCounts(labels, d);
    var r, entries := ChartData(labels), Entries(Seqs.Dedup(labels), Tally(labels));
    assert d in r <==> d in multiset(r);
    assert d in entries <==> d in multiset(entries);
  }

  /** No two slices of the chart share a name. */
  lemma ChartNamesDistinct(labels: seq<string>)
    ensures var r := ChartData(labels); forall i, j :: 0 <= i < j < |r| ==> r[i].name != r[j].name
  {
    TallySumsToLength(labels);
    Seqs.DedupIsSet(labels);
    var entries := Entries(Seqs.Dedup(labels), Tally(labels));
    SortByDistinct(entries, ByValue(), Desc);
    var r := ChartData(labels);
    assert r == SortBy(entries, ByValue(), Desc);
    forall i, j | 0 <= i < j < |r|
      ensures r[i].name != r[j].name
    {
      ChartDataMergesLabels(labels, r[i]);
      ChartDataMergesLabels(labels, r[j]);
      assert r[i] != r[j];
    }
  }

  // ---------------------------------------------------------------------
  // Pie colours
  // ---------------------------------------------------------------------

  const LifecycleColors: seq<string> := ["#3B82F6", "#EAB308", "#F97316", "#A855F7", "#10B981", "#06B6D4", "#EC4899", "#6B7280"]

  /** `LIFECYCLE_COLORS[index % LIFECYCLE_COLORS.length]` */
  function PieColor(index: nat): (r: string)
    ensures r in LifecycleColors
    ensures index < |LifecycleColors| ==> r == LifecycleColors[index]
  {
    LifecycleColors[index % |LifecycleColors|]
  }

  /** The colours repeat every eight slices. */
  lemma PieColorsCycle(index: nat)
    ensures PieColor(index + 8) == PieColor(index)
  {
    assert (index + 8) % 8 == index % 8;
  }
}
