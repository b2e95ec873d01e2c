/**
 * The contacts data table: a search and status filter, a stable sort on
 * one of six columns, pagination with a five-number page window, the sort
 * header state, and the CSV export. Dates are integer timestamps; a date
 * that is missing or empty is `None`.
 */
module ContactsTable {
  import opened Wrappers
  import opened Text
  import opened StableSort
  import opened Numbers
  import Seqs
  import opened HubSpotContact

  // ---------------------------------------------------------------------
  // Filter
  // ---------------------------------------------------------------------

  /** The search: a name, the email or the company, case-insensitively, or the phone as typed. */
  predicate MatchesSearch(c: Contact, term: string) {
    || FieldHas(c.firstname, term) || FieldHas(c.lastname, term) || FieldHas(c.email, term)
    || FieldHas(c.company, term) || (c.phone.Some? && Contains(c.phone.value, term))
  }

  function Passes(term: string, statusFilter: string): Contact -> bool {
    (c: Contact) => MatchesSearch(c, term) && StageMatches(c, statusFilter)
  }

  /**
   * An empty search does not let every contact through: it keeps exactly
   * the contacts that have at least one of the five searched fields, even
   * an empty one (`"".includes("")` holds, while `undefined?.…` does not).
   */
  lemma EmptySearchNeedsAField(c: Contact)
    ensures MatchesSearch(c, "") <==>
              c.firstname.Some? || c.lastname.Some? || c.email.Some? || c.company.Some? || c.phone.Some?
  {
    if c.firstname.Some? { ContainsEmpty(ToLower(c.firstname.value)); }
    if c.lastname.Some? { ContainsEmpty(ToLower(c.lastname.value)); }
    if c.email.Some? { ContainsEmpty(ToLower(c.email.value)); }
    if c.company.Some? { ContainsEmpty(ToLower(c.company.value)); }
    if c.phone.Some? { ContainsEmpty(c.phone.value); }
  }

  // ---------------------------------------------------------------------
  // Sort
  // ---------------------------------------------------------------------

  datatype SortField = Name | Status | Email | Company | Created | Modified

  /** `` `${first || ''} ${last || ''}`.trim() `` */
  function JoinedName(c: Contact): string {
    Trim(OrEmpty(c.firstname) + " " + OrEmpty(c.lastname))
  }

  /** The comparator's key for a column: lower-cased text, or the timestamp with a missing date as 0. */
  function SortKeyOf(field: SortField): Contact -> SortKey {
    (c: Contact) =>
      match field
      case Name => Str(ToLower(JoinedName(c)))
      case Status => Str(ToLower(OrEmpty(c.lifecyclestage)))
      case Email => Str(ToLower(OrEmpty(c.email)))
      case Company => Str(ToLower(OrEmpty(c.company)))
      case Created => Num(c.createdate.GetOr(0))
      case Modified => Num(c.lastmodifieddate.GetOr(0))
  }

  /** The contacts the table shows, before pagination. */
  function Shown(contacts: seq<Contact>, term: string, statusFilter: string, field: SortField, dir: Direction): (r: seq<Contact>)
    ensures |r| == |Seqs.Filter(Passes(term, statusFilter), contacts)|
  {
    SortBy(Seqs.Filter(Passes(term, statusFilter), contacts), SortKeyOf(field), dir)
  }

  /** `filteredContacts`: filter into a fresh array, then sort that array in place. */
  method FilterAndSort(contacts: seq<Contact>, term: string, statusFilter: string, field: SortField, dir: Direction)
    returns (r: seq<Contact>)
    ensures r == Shown(contacts, term, statusFilter, field, dir)
  {
    var filtered := Seqs.Filter(Passes(term, statusFilter), contacts);
    var a := new Contact[|filtered|](i requires 0 <= i < |filtered| => filtered[i]);
    assert a[..] == filtered;
    SortInPlace(a, SortKeyOf(field), dir);
    r := a[..];
  }

  /**
   * The shown contacts are the contacts that pass both filters, each as
   * often as in the input, ordered by the column's key in the chosen
   * direction, with contacts of equal key in their input order.
   */
  lemma ShownIsStableSortOfFiltered(contacts: seq<Contact>, term: string, statusFilter: string, field: SortField,
                                    dir: Direction, c: Contact, k: SortKey)
    ensures var filtered := Seqs.Filter(Passes(term, statusFilter), contacts);
            var shown := Shown(contacts, term, statusFilter, field, dir);
            && multiset(shown) == multiset(filtered)
            && (c in shown <==> c in contacts && MatchesSearch(c, term) && StageMatches(c, statusFilter))
            && Sorted(shown, SortKeyOf(field), dir)
            && WithKey(shown, SortKeyOf(field), k) == WithKey(filtered, SortKeyOf(field), k)
  {
    var filtered := Seqs.Filter(Passes(term, statusFilter), contacts);
    SortByPermutes(filtered, SortKeyOf(field), dir);
    SortBySorted(filtered, SortKeyOf(field), dir);
    SortByStable(filtered, SortKeyOf(field), dir, k);
    Seqs.FilterMembers(Passes(term, statusFilter), contacts, c);
    assert c in multiset(filtered) <==> c in filtered;
  }

  // ---------------------------------------------------------------------
  // Pagination
  // ---------------------------------------------------------------------

  /** `items.slice((page - 1) * perPage, (page - 1) * perPage + perPage)`. */
  function Page<T>(items: seq<T>, page: int, perPage: nat): seq<T> {
    var start := (page - 1) * perPage;
    Seqs.Slice(items, start, start + perPage)
  }

  /** `i` clamped to `[0, len]`. */
  function Clamp(i: int, len: nat): (r: nat)
    ensures r <= len
  {
    if i < 0 then 0 else if i > len then len else i
  }

  /** Page `page` (from 1) is the slice from `(page - 1) * perPage` to `page * perPage`, both cut at the end. */
  lemma PageIsSlice<T>(items: seq<T>, page: int, perPage: nat)
    requires page >= 1
    ensures Page(items, page, perPage) == items[Clamp((page - 1) * perPage, |items|)..Clamp(page * perPage, |items|)]
  {
    var start := (page - 1) * perPage;
    assert start >= 0;
    assert start + perPage == page * perPage;
  }

  /** The first `count` pages one after the other. */
  function FirstPages<T>(items: seq<T>, perPage: nat, count: nat): seq<T> {
    if count == 0 then [] else FirstPages(items, perPage, count - 1) + Page(items, count, perPage)
  }

  /** The first `count` pages are the first `count * perPage` items. */
  lemma {:induction false} FirstPagesArePrefix<T>(items: seq<T>, perPage: nat, count: nat)
    ensures FirstPages(items, perPage, count) == items[..Clamp(count * perPage, |items|)]
  {
    if count > 0 {
      var lo, hi := (count - 1) * perPage, count * perPage;
      PageStartBeforeEnd(count, perPage);
      var a, b := Clamp(lo, |items|), Clamp(hi, |items|);
      FirstPagesArePrefix(items, perPage, count - 1);
      PageIsSlice(items, count, perPage);
      PrefixSplits(items, a, b);
    }
  }

  /** A prefix is a shorter prefix followed by the slice between the two ends. */
  lemma PrefixSplits<T>(items: seq<T>, a: nat, b: nat)
    requires a <= b <= |items|
    ensures items[..b] == items[..a] + items[a..b]
  {
  }

  /** Page `count` starts where page `count - 1` ends, at or before its own end. */
  lemma PageStartBeforeEnd(count: nat, perPage: nat)
    requires count >= 1
    ensures (count - 1) * perPage <= count * perPage
  {
    assert (count - 1) * perPage + perPage == count * perPage;
  }

  /** Together, pages 1 to `totalPages` show every item once, in order. */
  lemma PagesCoverItems<T>(items: seq<T>, perPage: nat)
    requires perPage > 0
    ensures FirstPages(items, perPage, CeilDiv(|items|, perPage)) == items
  {
    CeilDivIsCeiling(|items|, perPage);
    FirstPagesArePrefix(items, perPage, CeilDiv(|items|, perPage));
  }

  /** Every page up to `totalPages` shows at least one item. */
  lemma PagesUpToTotalAreNotEmpty<T>(items: seq<T>, page: int, perPage: nat)
    requires perPage > 0 && 1 <= page <= CeilDiv(|items|, perPage)
    ensures |Page(items, page, perPage)| > 0
  {
    PageStartsInside(|items|, perPage, page);
    PageIsSlice(items, page, perPage);
  }

  /** Every page up to `totalPages` starts before the end of the items and ends after its start. */
  lemma PageStartsInside(n: nat, perPage: nat, page: int)
    requires perPage > 0 && 1 <= page <= CeilDiv(n, perPage)
    ensures 0 <= (page - 1) * perPage < n
    ensures (page - 1) * perPage < page * perPage
  {
    CeilDivIsCeiling(n, perPage);
    StartBeforeEnd(page - 1, CeilDiv(n, perPage) - 1, perPage, n);
    assert (page - 1) * perPage + perPage == page * perPage;
  }

  /** A page start below the last page's start lies before the end of the items. */
  lemma StartBeforeEnd(k: nat, last: nat, perPage: nat, n: nat)
    requires k <= last && last * perPage < n
    ensures k * perPage < n
  {
    assert last * perPage == k * perPage + (last - k) * perPage;
  }

  /** The page-number buttons: at most five consecutive numbers, centred on the current page where there is room. */
  function PageWindow(currentPage: int, totalPages: nat): seq<int> {
    var count := if totalPages < 5 then totalPages else 5;
    seq(count, i requires 0 <= i < count =>
      if totalPages <= 5 then i + 1
      else if currentPage <= 3 then i + 1
      else if currentPage >= totalPages - 2 then totalPages - 4 + i
      else currentPage - 2 + i)
  }

  /**
   * The window holds `min(5, totalPages)` consecutive page numbers, all of
   * them real pages, and the current page whenever it is a real page.
   */
  lemma PageWindowSpans(currentPage: int, totalPages: nat)
    ensures var w := PageWindow(currentPage, totalPages);
            && |w| == (if totalPages < 5 then totalPages else 5)
            && (forall i :: 0 <= i < |w| ==> 1 <= w[i] <= totalPages)
            && (forall i :: 0 < i < |w| ==> w[i] == w[i - 1] + 1)
            && (1 <= currentPage <= totalPages ==> currentPage in w)
  {
    var w := PageWindow(currentPage, totalPages);
    if 1 <= currentPage <= totalPages {
      var i := if totalPages <= 5 || currentPage <= 3 then currentPage - 1
               else if currentPage >= totalPages - 2 then currentPage - totalPages + 4
               else 2;
      assert w[i] == currentPage;
    }
  }

  // ---------------------------------------------------------------------
  // Cells
  // ---------------------------------------------------------------------

  /** `getFullName`: the trimmed "first last", or "Unnamed Contact". */
  function FullName(c: Contact): (r: string)
    ensures r != []
    ensures JoinedName(c) != [] ==> r == JoinedName(c)
    ensures JoinedName(c) == [] ==> r == "Unnamed Contact"
  {
    var name := JoinedName(c);
    if name != "" then name else "Unnamed Contact"
  }

  /** A contact with a first name that is not all white space is shown by a name, never as "Unnamed Contact". */
  lemma NamedContactHasName(c: Contact)
    requires c.firstname.Some? && !AllWhite(c.firstname.value)
    ensures IsTrimmed(FullName(c)) && FullName(c) == JoinedName(c)
  {
    var joined := OrEmpty(c.firstname) + " " + OrEmpty(c.lastname);
    var k :| 0 <= k < |c.firstname.value| && !IsWhite(c.firstname.value[k]);
    assert joined[k] == c.firstname.value[k];
    TrimTrims(joined);
  }

  /** What `TruncatedText` renders: "--" for no text, the text, or its first `maxLength` characters with "..." and the whole text as a tooltip. */
  datatype Truncation = Placeholder | Whole(text: string) | Cut(shown: string, tooltip: string)

  function TruncatedText(text: Option<string>, maxLength: nat): Truncation {
    if text.None? || text.value == "" then Placeholder
    else if |text.value| <= maxLength then Whole(text.value)
    else Cut(text.value[..maxLength] + "...", text.value)
  }

  /** The characters a truncation puts on screen. */
  function Displayed(t: Truncation): string {
    match t
    case Placeholder => "--"
    case Whole(text) => text
    case Cut(shown, _) => shown
  }

  /**
   * A truncation never shows more than `maxLength` characters of the text,
   * shows a prefix of it, and keeps the whole text in reach: on screen or
   * in the tooltip.
   */
  lemma TruncationKeepsText(text: Option<string>, maxLength: nat)
    ensures var t := TruncatedText(text, maxLength);
            && (text.Some? && text.value != "" <==> !t.Placeholder?)
            && (t.Whole? ==> t.text == text.value && |t.text| <= maxLength)
            && (t.Cut? ==> t.tooltip == text.value && |text.value| > maxLength
                           && |Displayed(t)| == maxLength + 3 && Displayed(t)[..maxLength] <= text.value)
  {
  }

  /** `formatStatus`: a space before each capital, the first character upper-cased, then trimmed; "--" for none. */
  function FormatStatus(status: Option<string>): string {
    if status.None? || status.value == "" then "--"
    else Trim(CapitalizeFirst(SpaceBeforeCapitals(status.value)))
  }

  /** `s.replace(/([A-Z])/g, ' $1')` */
  function SpaceBeforeCapitals(s: string): (r: string)
    ensures |r| >= |s|
  {
    if |s| == 0 then ""
    else (if 'A' <= s[0] <= 'Z' then [' ', s[0]] else [s[0]]) + SpaceBeforeCapitals(s[1..])
  }

  /** `s.replace(/^./, c => c.toUpperCase())`: `.` does not match a line terminator. */
  function CapitalizeFirst(s: string): string {
    if |s| > 0 && !IsLineTerminator(s[0]) then [UpperChar(s[0])] + s[1..] else s
  }

  /** A status without capitals gains no spaces: HubSpot's lower-case stage names only get their first letter raised. */
  lemma {:induction false} NoCapitalsNoSpaces(s: string)
    requires forall k :: 0 <= k < |s| ==> !('A' <= s[k] <= 'Z')
    ensures SpaceBeforeCapitals(s) == s
  {
    if |s| > 0 {
      NoCapitalsNoSpaces(s[1..]);
    }
  }

  /**
   * A status with no capitals and no surrounding white space, as HubSpot's
   * stage names are, is shown with only its first letter raised:
   * "salesqualifiedlead" becomes "Salesqualifiedlead".
   */
  lemma LowerCaseStatusIsCapitalized(s: string)
    requires s != [] && IsTrimmed(s)
    requires forall k :: 0 <= k < |s| ==> !('A' <= s[k] <= 'Z')
    ensures FormatStatus(Some(s)) == [UpperChar(s[0])] + s[1..]
  {
    NoCapitalsNoSpaces(s);
    var c := [UpperChar(s[0])] + s[1..];
    assert !IsLineTerminator(s[0]);
    assert IsTrimmed(c);
    TrimTrims(c);
  }

  // ---------------------------------------------------------------------
  // CSV export
  // ---------------------------------------------------------------------

  const CsvHeaders: seq<string> := ["Name", "Email", "Company", "Phone", "Status", "Created Date"]

  /** `formatDate`: "--" without a date; the locale rendering is a parameter. */
  function FormatDate(date: Option<int>, render: int -> string): string {
    if date.None? then "--" else render(date.value)
  }

  /** The six cells of a contact's row. */
  function CsvRow(c: Contact, render: int -> string): (r: seq<string>)
    ensures |r| == |CsvHeaders|
  {
    [FullName(c), OrEmpty(c.email), OrEmpty(c.company), OrEmpty(c.phone),
     FormatStatus(c.lifecyclestage), FormatDate(c.createdate, render)]
  }

  /** `` `"${cell}"` ``: quotes around the cell, nothing inside escaped. */
  function QuoteCell(cell: string): string {
    "\"" + cell + "\""
  }

  function CsvLine(row: seq<string>): string {
    Join(seq(|row|, i requires 0 <= i < |row| => QuoteCell(row[i])), ",")
  }

  /** The rows' lines, in order. */
  function CsvLines(contacts: seq<Contact>, render: int -> string): (r: seq<string>)
    ensures |r| == |contacts|
  {
    seq(|contacts|, i requires 0 <= i < |contacts| => CsvLine(CsvRow(contacts[i], render)))
  }

  /** The header line, then one line per contact. */
  function ExportLines(contacts: seq<Contact>, render: int -> string): seq<string> {
    [Join(CsvHeaders, ",")] + CsvLines(contacts, render)
  }

  /** `csvContent`: the header line, then one line per contact, joined by "\n". */
  function CsvContent(contacts: seq<Contact>, render: int -> string): string {
    Join(ExportLines(contacts, render), "\n")
  }

  /** No cell of the contact's row holds a line break. */
  predicate SingleLineCells(c: Contact, render: int -> string) {
    forall k :: 0 <= k < |CsvRow(c, render)| ==> '\n' !in CsvRow(c, render)[k]
  }

  /** A row whose cells hold no line break is a single line. */
  lemma CsvLineIsOneLine(row: seq<string>)
    requires forall k :: 0 <= k < |row| ==> '\n' !in row[k]
    ensures '\n' !in CsvLine(row)
  {
    var quoted := seq(|row|, i requires 0 <= i < |row| => QuoteCell(row[i]));
    forall k | 0 <= k < |quoted|
      ensures '\n' !in quoted[k]
    {
      assert quoted[k] == "\"" + row[k] + "\"";
    }
    JoinAvoids(quoted, ",", '\n');
  }

  /**
   * When no cell holds a line break, splitting the export at line breaks
   * gives the header line and then exactly one line per contact, in order.
   */
  lemma CsvHasOneLinePerContact(contacts: seq<Contact>, render: int -> string)
    requires forall i :: 0 <= i < |contacts| ==> SingleLineCells(contacts[i], render)
    ensures Split(CsvContent(contacts, render), "\n") == [Join(CsvHeaders, ",")] + CsvLines(contacts, render)
    ensures |Split(CsvContent(contacts, render), "\n")| == 1 + |contacts|
  {
    LinesAreSingle(contacts, render);
    SplitJoinLines(ExportLines(contacts, render));
  }

  /** Lines without line breaks, joined by "\n", split back into the same lines. */
  lemma SplitJoinLines(lines: seq<string>)
    requires lines != []
    requires forall k :: 0 <= k < |lines| ==> '\n' !in lines[k]
    ensures Split(Join(lines, "\n"), "\n") == lines
  {
    assert "\n"[0] == '\n';
    SplitJoin(lines, "\n");
  }

  /** No line of the export holds a line break when no cell does. */
  lemma LinesAreSingle(contacts: seq<Contact>, render: int -> string)
    requires forall i :: 0 <= i < |contacts| ==> SingleLineCells(contacts[i], render)
    ensures forall k :: 0 <= k < |ExportLines(contacts, render)| ==> '\n' !in ExportLines(contacts, render)[k]
  {
    var lines := ExportLines(contacts, render);
    forall k | 0 <= k < |lines|
      ensures '\n' !in lines[k]
    {
      if k == 0 {
        HeaderIsOneLine();
      } else {
        RowLineIsOneLine(contacts, render, k - 1);
      }
    }
  }

  /** The header line holds no line break. */
  lemma HeaderIsOneLine()
    ensures '\n' !in Join(CsvHeaders, ",")
  {
    JoinAvoids(CsvHeaders, ",", '\n');
  }

  /** The line of a contact whose cells hold no line break is a single line. */
  lemma RowLineIsOneLine(contacts: seq<Contact>, render: int -> string, i: nat)
    requires i < |contacts| && SingleLineCells(contacts[i], render)
    ensures '\n' !in CsvLines(contacts, render)[i]
  {
    CsvLineIsOneLine(CsvRow(contacts[i], render));
  }

  /**
   * Reading the inside of a quoted field as section 2 of RFC 4180 does: a
   * doubled quote stands for one quote, and a lone quote ends the field,
   * so the text is not a single field.
   */
  function Unescape(s: string): Option<string> {
    if |s| == 0 then Some("")
    else if s[0] == '"' then
      if |s| >= 2 && s[1] == '"' then
        match Unescape(s[2..])
        case Some(rest) => Some("\"" + rest)
        case None => None
      else None
    else
      match Unescape(s[1..])
      case Some(rest) => Some([s[0]] + rest)
      case None => None
  }

  /** Unescaping never lengthens, and shortens whenever a quote is present. */
  lemma {:induction false} UnescapeShortens(s: string)
    ensures Unescape(s).Some? ==> |Unescape(s).value| <= |s|
    ensures Unescape(s).Some? && '"' in s ==> |Unescape(s).value| < |s|
  {
    if |s| > 0 {
      if s[0] == '"' {
        if |s| >= 2 {
          UnescapeShortens(s[2..]);
        }
      } else {
        UnescapeShortens(s[1..]);
        assert '"' in s ==> '"' in s[1..];
      }
    }
  }

  /** Text without quotes reads back as itself. */
  lemma {:induction false} UnescapePlain(s: string)
    requires '"' !in s
    ensures Unescape(s) == Some(s)
  {
    if |s| > 0 {
      UnescapePlain(s[1..]);
      assert s == [s[0]] + s[1..];
    }
  }

  /**
   * The export's quoting reads back as the cell exactly when the cell has
   * no quote: a cell such as `say "hi"` ends its field early.
   */
  lemma QuotedCellReadsBack(cell: string)
    ensures Unescape(QuoteCell(cell)[1..|QuoteCell(cell)| - 1]) == Some(cell) <==> '"' !in cell
  {
    assert QuoteCell(cell)[1..|QuoteCell(cell)| - 1] == cell;
    if '"' in cell {
      UnescapeShortens(cell);
    } else {
      UnescapePlain(cell);
    }
  }

  /** A cell with a quote does not survive the export. */
  lemma QuotedCellBreaks()
    ensures Unescape(QuoteCell("say \"hi\"")[1..|QuoteCell("say \"hi\"")| - 1]) != Some("say \"hi\"")
  {
    QuotedCellReadsBack("say \"hi\"");
    assert "say \"hi\""[4] == '"';
  }

  /** Doubling each quote, as section 2 of RFC 4180 requires. */
  function EscapeQuotes(cell: string): (r: string)
  {
    if |cell| == 0 then ""
    else (if cell[0] == '"' then "\"\"" else [cell[0]]) + EscapeQuotes(cell[1..])
  }

  /** With quotes doubled every cell reads back as itself. */
  lemma {:induction false} EscapedCellReadsBack(cell: string)
    ensures Unescape(EscapeQuotes(cell)) == Some(cell)
  {
    if |cell| > 0 {
      EscapedCellReadsBack(cell[1..]);
      var rest := EscapeQuotes(cell[1..]);
      if cell[0] == '"' {
        assert EscapeQuotes(cell) == "\"\"" + rest;
        assert EscapeQuotes(cell)[2..] == rest;
      } else {
        assert EscapeQuotes(cell) == [cell[0]] + rest;
        assert EscapeQuotes(cell)[1..] == rest;
      }
      assert cell == [cell[0]] + cell[1..];
    }
  }

  // ---------------------------------------------------------------------
  // The table's state
  // ---------------------------------------------------------------------

  /** The page-size options. */
  const PageSizes: set<nat> := {5, 10, 25, 50, 100}

  /** The `ContactsDataTable` component's state over a fixed contact list. */
  class DataTable {
    const contacts: seq<Contact>
    var searchTerm: string
    var statusFilter: string
    var currentPage: int
    var itemsPerPage: nat
    var sortField: SortField
    var sortDirection: Direction

    /** The initial state: no search, all statuses, page 1 of 10 rows, by name ascending. */
    constructor(contacts: seq<Contact>)
      ensures this.contacts == contacts
      ensures searchTerm == "" && statusFilter == "all" && currentPage == 1 && itemsPerPage == 10
      ensures sortField == Name && sortDirection == Asc
      ensures Valid()
    {
      this.contacts := contacts;
      searchTerm := "";
      statusFilter := "all";
      currentPage := 1;
      itemsPerPage := 10;
      sortField := Name;
      sortDirection := Asc;
    }

    /** The filtered, sorted contacts. */
    function Rows(): seq<Contact>
      reads this
    {
      Shown(contacts, searchTerm, statusFilter, sortField, sortDirection)
    }

    /** `totalPages` */
    function TotalPages(): nat
      reads this
      requires itemsPerPage > 0
    {
      CeilDiv(|Rows()|, itemsPerPage)
    }

    /** The page is a real page, or page 1 when there is none. */
    predicate Valid()
      reads this
    {
      itemsPerPage > 0 && 1 <= currentPage && (currentPage == 1 || currentPage <= TotalPages())
    }

    /** `paginatedContacts` */
    function Paginated(): seq<Contact>
      reads this
    {
      Page(Rows(), currentPage, itemsPerPage)
    }

    /** In a valid state the table is empty only when no contact passes the filters. */
    lemma PageIsEmptyOnlyWithoutRows()
      requires Valid()
      ensures |Paginated()| == 0 <==> |Rows()| == 0
    {
      CeilDivIsCeiling(|Rows()|, itemsPerPage);
      if |Rows()| > 0 {
        PagesUpToTotalAreNotEmpty(Rows(), currentPage, itemsPerPage);
      }
    }

    method HandleSearchChange(value: string)
      requires Valid()
      modifies this
      ensures searchTerm == value && currentPage == 1
      ensures statusFilter == old(statusFilter) && itemsPerPage == old(itemsPerPage)
      ensures sortField == old(sortField) && sortDirection == old(sortDirection)
      ensures Valid()
    {
      searchTerm := value;
      currentPage := 1;
    }

    method HandleStatusFilterChange(value: string)
      requires Valid()
      modifies this
      ensures statusFilter == value && currentPage == 1
      ensures searchTerm == old(searchTerm) && itemsPerPage == old(itemsPerPage)
      ensures sortField == old(sortField) && sortDirection == old(sortDirection)
      ensures Valid()
    {
      statusFilter := value;
      currentPage := 1;
    }

    method HandleItemsPerPageChange(value: nat)
      requires Valid() && value in PageSizes
      modifies this
      ensures itemsPerPage == value && currentPage == 1
      ensures searchTerm == old(searchTerm) && statusFilter == old(statusFilter)
      ensures sortField == old(sortField) && sortDirection == old(sortDirection)
      ensures Valid()
    {
      itemsPerPage := value;
      currentPage := 1;
    }

    /** `handleSort`: the same column flips the direction, another column sorts ascending; back to page 1. */
    method HandleSort(field: SortField)
      requires Valid()
      modifies this
      ensures sortField == field
      ensures sortDirection == if old(sortField) == field then (if old(sortDirection) == Asc then Desc else Asc) else Asc
      ensures currentPage == 1
      ensures searchTerm == old(searchTerm) && statusFilter == old(statusFilter) && itemsPerPage == old(itemsPerPage)
      ensures Valid()
    {
      if sortField == field {
        sortDirection := if sortDirection == Asc then Desc else Asc;
      } else {
        sortField := field;
        sortDirection := Asc;
      }
      currentPage := 1;
    }

    /**
     * The "Clear Search" button, shown only when a search leaves the page
     * empty: it empties the search and leaves the page number alone. That
     * is safe, because an empty page in a valid state is page 1.
     */
    method ClearSearch()
      requires Valid() && |Paginated()| == 0 && searchTerm != ""
      modifies this
      ensures searchTerm == "" && currentPage == old(currentPage)
      ensures currentPage == 1
      ensures statusFilter == old(statusFilter) && itemsPerPage == old(itemsPerPage)
      ensures sortField == old(sortField) && sortDirection == old(sortDirection)
      ensures Valid()
    {
      PageIsEmptyOnlyWithoutRows();
      searchTerm := "";
    }

    /** The first-page button; the pagination controls exist only with more than one page. */
    method FirstPage()
      requires Valid() && TotalPages() > 1
      modifies this
      ensures currentPage == 1
      ensures searchTerm == old(searchTerm) && statusFilter == old(statusFilter) && itemsPerPage == old(itemsPerPage)
      ensures sortField == old(sortField) && sortDirection == old(sortDirection)
      ensures Valid()
    {
      currentPage := 1;
    }

    /** `Math.max(prev - 1, 1)` */
    method PreviousPage()
      requires Valid() && TotalPages() > 1
      modifies this
      ensures currentPage == if old(currentPage) - 1 < 1 then 1 else old(currentPage) - 1
      ensures searchTerm == old(searchTerm) && statusFilter == old(statusFilter) && itemsPerPage == old(itemsPerPage)
      ensures sortField == old(sortField) && sortDirection == old(sortDirection)
      ensures Valid()
    {
      currentPage := if currentPage - 1 < 1 then 1 else currentPage - 1;
    }

    /** `Math.min(prev + 1, totalPages)` */
    method NextPage()
      requires Valid() && TotalPages() > 1
      modifies this
      ensures currentPage == if old(currentPage) + 1 < old(TotalPages()) then old(currentPage) + 1 else old(TotalPages())
      ensures searchTerm == old(searchTerm) && statusFilter == old(statusFilter) && itemsPerPage == old(itemsPerPage)
      ensures sortField == old(sortField) && sortDirection == old(sortDirection)
      ensures Valid()
    {
      var total := TotalPages();
      currentPage := if currentPage + 1 < total then currentPage + 1 else total;
    }

    /** The last-page button. */
    method LastPage()
      requires Valid() && TotalPages() > 1
      modifies this
      ensures currentPage == old(TotalPages())
      ensures searchTerm == old(searchTerm) && statusFilter == old(statusFilter) && itemsPerPage == old(itemsPerPage)
      ensures sortField == old(sortField) && sortDirection == old(sortDirection)
      ensures Valid()
    {
      currentPage := TotalPages();
    }

    /** A page-number button of the window. */
    method GoToPage(pageNum: int)
      requires Valid() && TotalPages() > 1 && pageNum in PageWindow(currentPage, TotalPages())
      modifies this
      ensures currentPage == pageNum
      ensures searchTerm == old(searchTerm) && statusFilter == old(statusFilter) && itemsPerPage == old(itemsPerPage)
      ensures sortField == old(sortField) && sortDirection == old(sortDirection)
      ensures Valid()
    {
      PageWindowSpans(currentPage, TotalPages());
      currentPage := pageNum;
    }
  }
}
