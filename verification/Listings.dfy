/**
 Proving that an object is absent. The firewall writer reads one complete listing and counts its rows
 against the stated total; the catalog engine scans pages of 200 until the stated total is reached.
 */
module Listings {
  import opened Wrappers
  import opened JsonTrees
  import Text

  // ---- One complete listing -------------------------------------------------

  /** A search answer: the `uuid` of every row (empty text where missing) and the `total`, if any. */
  datatype Listing = Malformed | Listing(rows: seq<Json>, total: Option<Json>)

  /** `str(row.get("uuid", ""))`, up to values that can be neither an identifier nor a lockout name. */
  function RowText(uuid: Json): string {
    if uuid.Str? then uuid.text else ""
  }

  /** `lockout_\d+`: a generated anti-lockout row of the DNAT grid. */
  predicate IsLockout(s: string) {
    |s| > 8 && s[..8] == "lockout_" && Text.IsDigits(s[8..])
  }

  /** Rows that count towards the total. */
  function CountedRows(dnat: bool, rows: seq<Json>): seq<string> {
    if rows == [] then []
    else
      var s := RowText(rows[0]);
      (if dnat && IsLockout(s) then [] else [Text.Lower(s)]) + CountedRows(dnat, rows[1..])
  }

  function TotalValue(total: Json): Option<nat> {
    match total
    case Num(n) => if n >= 0 then Some(n) else None
    case Str(s) => if Text.IsDigits(s) then Some(Text.NatValue(s)) else None
    case _ => None
  }

  /** `search`: the rows, or None where the answer is malformed or incomplete. */
  function Search(dnat: bool, answer: Listing): Option<seq<Json>> {
    match answer
    case Malformed => None
    case Listing(rows, None) => Some(rows)
    case Listing(rows, Some(total)) =>
      match TotalValue(total)
      case None => None
      case Some(n) => if n > |CountedRows(dnat, rows)| then None else Some(rows)
  }

  /** `verify(uuid, None)`: no row carries the identifier, in any letter case. */
  predicate LacksRow(rows: seq<Json>, uuid: string) {
    forall r :: r in rows ==> Text.Lower(RowText(r)) != Text.Lower(uuid)
  }

  /** What an honest node lists: distinct rows of its table and the true total, lockout rows uncounted. */
  ghost predicate Honest(dnat: bool, answer: Listing, table: set<string>) {
    && answer.Listing?
    && answer.total.Some? && TotalValue(answer.total.value) == Some(|table|)
    && var counted := CountedRows(dnat, answer.rows);
       && (forall i :: 0 <= i < |counted| ==> counted[i] in table)
       && (forall i, j :: 0 <= i < j < |counted| ==> counted[i] != counted[j])
  }

  lemma {:induction false} DistinctRowsCover(rows: seq<string>, table: set<string>)
    requires forall i :: 0 <= i < |rows| ==> rows[i] in table
    requires forall i, j :: 0 <= i < j < |rows| ==> rows[i] != rows[j]
    ensures |rows| <= |table|
    ensures |rows| == |table| ==> forall u :: u in table ==> u in rows
  {
    if rows != [] {
      var rest := rows[1..];
      assert forall i :: 0 <= i < |rest| ==> rest[i] == rows[i + 1];
      DistinctRowsCover(rest, table - {rows[0]});
      forall u | |rows| == |table| && u in table ensures u in rows {
        assert u == rows[0] || u in table - {rows[0]};
      }
    }
  }

  lemma {:induction false} CountedRowsAreListed(dnat: bool, rows: seq<Json>, s: string)
    ensures s in CountedRows(dnat, rows) <==>
            exists r :: r in rows && Text.Lower(RowText(r)) == s && !(dnat && IsLockout(RowText(r)))
  {
    if rows != [] {
      CountedRowsAreListed(dnat, rows[1..], s);
      assert forall r :: r in rows <==> r == rows[0] || r in rows[1..];
    }
  }

  /** A listing that passes the count lists the whole table, so a row it lacks is absent. */
  lemma CompleteListing(dnat: bool, answer: Listing, table: set<string>, uuid: string)
    requires Honest(dnat, answer, table)
    ensures Search(dnat, answer).Some? ==> forall u :: u in table ==> u in CountedRows(dnat, answer.rows)
    ensures Search(dnat, answer).Some? && LacksRow(answer.rows, uuid) ==> Text.Lower(uuid) !in table
  {
    var counted := CountedRows(dnat, answer.rows);
    DistinctRowsCover(counted, table);
    CountedRowsAreListed(dnat, answer.rows, Text.Lower(uuid));
  }

  // ---- Pages ----------------------------------------------------------------

  /** One page as `list` returns it: the identifiers and the stated total; Bad where `list` raises. */
  datatype Page = Bad | Page(rows: seq<string>, total: int)

  datatype Scan = Absent | Present | Incomplete | Failed

  const PAGE_SIZE := 200
  const MAX_PAGES := 1000

  predicate Contains(rows: seq<string>, uuid: string) {
    exists r :: r in rows && Text.Lower(r) == uuid
  }

  /** The scan from a given page on; a short page before the total ends it without a verdict. */
  function ScanFrom(pages: nat -> Page, uuid: string, page: nat, observed: nat): Scan
    requires 1 <= page <= MAX_PAGES
    decreases MAX_PAGES - page
  {
    match pages(page)
    case Bad => Failed
    case Page(rows, total) =>
      if total < |rows| then Failed
      else if Contains(rows, uuid) then Present
      else if observed + |rows| >= total then Absent
      else if |rows| < PAGE_SIZE || page >= MAX_PAGES then Incomplete
      else ScanFrom(pages, uuid, page + 1, observed + |rows|)
  }

  /** The page on which the scan ends. */
  function LastPage(pages: nat -> Page, uuid: string, page: nat, observed: nat): (last: nat)
    requires 1 <= page <= MAX_PAGES
    ensures page <= last <= MAX_PAGES
    decreases MAX_PAGES - page
  {
    match pages(page)
    case Bad => page
    case Page(rows, total) =>
      if total < |rows| || Contains(rows, uuid) || observed + |rows| >= total || |rows| < PAGE_SIZE || page >= MAX_PAGES
      then page else LastPage(pages, uuid, page + 1, observed + |rows|)
  }

  /** Pages after the last one do not matter. */
  lemma {:induction false} ScanReadsUpToLastPage(a: nat -> Page, b: nat -> Page, uuid: string, page: nat, observed: nat)
    requires 1 <= page <= MAX_PAGES
    requires forall p: nat :: page <= p <= LastPage(a, uuid, page, observed) ==> a(p) == b(p)
    ensures ScanFrom(b, uuid, page, observed) == ScanFrom(a, uuid, page, observed)
    ensures LastPage(b, uuid, page, observed) == LastPage(a, uuid, page, observed)
    decreases MAX_PAGES - page
  {
    assert a(page) == b(page);
    if LastPage(a, uuid, page, observed) != page {
      ScanReadsUpToLastPage(a, b, uuid, page + 1, observed + |a(page).rows|);
    }
  }

  /** One page of the scan. */
  lemma ScanStep(pages: nat -> Page, uuid: string, page: nat, observed: nat)
    requires 1 <= page <= MAX_PAGES
    ensures var listing, scan := pages(page), ScanFrom(pages, uuid, page, observed);
            var last := LastPage(pages, uuid, page, observed);
            if listing.Bad? || listing.total < |listing.rows| then scan == Failed && last == page
            else if Contains(listing.rows, uuid) then scan == Present && last == page
            else if observed + |listing.rows| >= listing.total then scan == Absent && last == page
            else if |listing.rows| < PAGE_SIZE || page >= MAX_PAGES then scan == Incomplete && last == page
            else scan == ScanFrom(pages, uuid, page + 1, observed + |listing.rows|)
                 && last == LastPage(pages, uuid, page + 1, observed + |listing.rows|)
  {
    hide Contains;
  }

  /** The delete verification loop. Every page is requested once, so `pages` may answer anything. */
  method ScanPages(pages: nat -> Page, uuid: string) returns (verdict: Scan, requests: nat)
    ensures verdict == ScanFrom(pages, uuid, 1, 0)
    ensures requests == LastPage(pages, uuid, 1, 0)
    ensures verdict == Absent ==> forall p :: 1 <= p <= requests ==> pages(p).Page? && !Contains(pages(p).rows, uuid)
  {
    hide Contains, ScanFrom, LastPage;
    var page: nat, observed: nat := 1, 0;
    while true
      invariant 1 <= page <= MAX_PAGES
      invariant ScanFrom(pages, uuid, page, observed) == ScanFrom(pages, uuid, 1, 0)
      invariant LastPage(pages, uuid, page, observed) == LastPage(pages, uuid, 1, 0)
      invariant forall p :: 1 <= p < page ==> pages(p).Page? && !Contains(pages(p).rows, uuid)
      decreases MAX_PAGES - page
    {
      ScanStep(pages, uuid, page, observed);
      var listing := pages(page);
      if listing.Bad? || listing.total < |listing.rows| {
        return Failed, page;
      }
      observed := observed + |listing.rows|;
      if Contains(listing.rows, uuid) {
        return Present, page;
      }
      if observed >= listing.total {
        return Absent, page;
      }
      if |listing.rows| < PAGE_SIZE || page >= MAX_PAGES {
        return Incomplete, page;
      }
      page := page + 1;
    }
  }

  /** Page `p` of a fixed table. */
  function TablePage(table: seq<string>, p: nat): Page {
    if p == 0 then Bad
    else
      var low := PAGE_SIZE * (p - 1);
      var high := PAGE_SIZE * p;
      Page(if low >= |table| then [] else if high >= |table| then table[low..] else table[low..high], |table|)
  }

  /** A node that serves a fixed table. */
  function Pages(table: seq<string>): nat -> Page {
    (p: nat) => TablePage(table, p)
  }

  /** Rows that 1000 pages can show. */
  function Reachable(table: seq<string>): seq<string> {
    if |table| <= PAGE_SIZE * MAX_PAGES then table else table[..PAGE_SIZE * MAX_PAGES]
  }

  lemma PageOfReachable(table: seq<string>, page: nat, uuid: string)
    requires 1 <= page <= MAX_PAGES && (page == 1 || PAGE_SIZE * (page - 1) < |table|)
    ensures var low, high, shown := PAGE_SIZE * (page - 1), PAGE_SIZE * page, Reachable(table);
            && low <= |shown|
            && (high >= |shown| ==> TablePage(table, page).rows == shown[low..])
            && (high < |shown| ==>
                  && |TablePage(table, page).rows| == PAGE_SIZE
                  && (Contains(shown[low..], uuid)
                      <==> Contains(TablePage(table, page).rows, uuid) || Contains(shown[high..], uuid)))
  {
    var low, high, shown := PAGE_SIZE * (page - 1), PAGE_SIZE * page, Reachable(table);
    var rows := TablePage(table, page).rows;
    if high < |shown| {
      assert rows == shown[low..high];
      assert shown[low..] == rows + shown[high..];
      assert forall r :: r in shown[low..] <==> r in rows || r in shown[high..];
    }
  }

  lemma ContainsNothing(uuid: string)
    ensures !Contains([], uuid)
  {
  }

  lemma {:induction false} ScanOfTable(table: seq<string>, uuid: string, page: nat)
    requires 1 <= page <= MAX_PAGES && (page == 1 || PAGE_SIZE * (page - 1) < |table|)
    ensures PAGE_SIZE * (page - 1) <= |Reachable(table)|
    ensures ScanFrom(Pages(table), uuid, page, PAGE_SIZE * (page - 1))
            == if Contains(Reachable(table)[PAGE_SIZE * (page - 1)..], uuid) then Present
               else if |table| <= PAGE_SIZE * MAX_PAGES then Absent else Incomplete
    decreases MAX_PAGES - page
  {
    hide Contains;
    PageOfReachable(table, page, uuid);
    ContainsNothing(uuid);
    var answer := Pages(table)(page);
    assert answer == TablePage(table, page);
    var observed := PAGE_SIZE * (page - 1) + |answer.rows|;
    if PAGE_SIZE * page < |Reachable(table)| {
      assert observed == PAGE_SIZE * page < answer.total;
      ScanOfTable(table, uuid, page + 1);
    } else if |table| <= PAGE_SIZE * MAX_PAGES {
      assert observed == answer.total;
    } else {
      assert page == MAX_PAGES && observed < answer.total;
    }
  }

  /**
   Against a fixed table the scan never reports a present object absent, and up to 200000 rows it
   reports absence exactly when the object is missing.
   */
  lemma AbsenceByExhaustion(table: seq<string>, uuid: string)
    ensures var verdict := ScanFrom(Pages(table), uuid, 1, 0);
            && (verdict == Absent <==> !Contains(table, uuid) && |table| <= PAGE_SIZE * MAX_PAGES)
            && (verdict == Present <==> Contains(Reachable(table), uuid))
            && verdict != Failed
  {
    ScanOfTable(table, uuid, 1);
    assert Reachable(table)[0..] == Reachable(table);
    assert forall r :: r in Reachable(table) ==> r in table;
  }

}
