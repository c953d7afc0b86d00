/**
 * The audit log's bounded memory, its reload from disk, and filtered pages (src/server/audit.rs,
 * src/server/admin.rs:1142-1197).
 */
module Audit {
  import opened Bytes
  import opened Rings

  const AUDIT_LOG_CAP: nat := 500
  const MAX_PAGE_SIZE: nat := 200

  datatype Entry = Entry(at: nat, action: string, detail: string, ip: string)

  /** A line of the file: an entry, text that is not one, or bytes that are not text at all. */
  datatype Line = Good(entry: Entry) | Garbage | Broken

  // ----- the file -----

  /** What a reload reads: garbage is skipped, and the first line that is not text ends the reading. */
  function Parsed(lines: seq<Line>): seq<Entry> {
    if lines == [] || lines[0].Broken? then []
    else (if lines[0].Good? then [lines[0].entry] else []) + Parsed(lines[1..])
  }

  function Goods(entries: seq<Entry>): seq<Line> {
    seq(|entries|, i requires 0 <= i < |entries| => Good(entries[i]))
  }

  predicate Intact(lines: seq<Line>) {
    Broken !in lines
  }

  lemma {:induction false} ParsedGoods(entries: seq<Entry>)
    ensures Parsed(Goods(entries)) == entries
  {
    if entries != [] {
      assert Goods(entries)[1..] == Goods(entries[1..]);
      ParsedGoods(entries[1..]);
    }
  }

  lemma {:induction false} ParsedAppend(lines: seq<Line>, more: seq<Line>)
    ensures Parsed(lines + more) == if Intact(lines) then Parsed(lines) + Parsed(more) else Parsed(lines)
  {
    if lines == [] {
      assert lines + more == more;
    } else if !lines[0].Broken? {
      assert (lines + more)[1..] == lines[1..] + more;
      assert lines == [lines[0]] + lines[1..];
      ParsedAppend(lines[1..], more);
    }
  }

  /**
   * A log rebuilt from its fully written file equals the log that wrote it, if the file it began with is
   * readable to its end. Otherwise everything written since is missing from the rebuilt log.
   */
  lemma RebuiltLogAgrees(lines: seq<Line>, recorded: seq<Entry>)
    ensures Intact(lines) ==>
              Last(Parsed(lines + Goods(recorded)), AUDIT_LOG_CAP) == Last(Parsed(lines) + recorded, AUDIT_LOG_CAP)
    ensures !Intact(lines) ==>
              Last(Parsed(lines + Goods(recorded)), AUDIT_LOG_CAP) == Last(Parsed(lines), AUDIT_LOG_CAP)
  {
    ParsedAppend(lines, Goods(recorded));
    ParsedGoods(recorded);
  }

  function Reversed<T>(s: seq<T>): (r: seq<T>)
    ensures |r| == |s| && forall i :: 0 <= i < |s| ==> r[i] == s[|s| - 1 - i]
  {
    if s == [] then [] else Reversed(s[1..]) + [s[0]]
  }

  // ----- queries -----

  /** Empty texts and absent times filter nothing. */
  datatype Query = Query(action: string, ip: string, from: Option<nat>, to: Option<nat>, page: U64, pageSize: U64)

  predicate OccursAt(s: string, part: string, i: nat) {
    i + |part| <= |s| && s[i..i + |part|] == part
  }

  predicate Contains(s: string, part: string) {
    exists i :: 0 <= i <= |s| && OccursAt(s, part, i)
  }

  predicate Matches(e: Entry, q: Query) {
    && (q.action != "" ==> e.action == q.action)
    && (q.ip != "" ==> Contains(e.ip, q.ip))
    && (q.from.Some? ==> q.from.value <= e.at)
    && (q.to.Some? ==> e.at <= q.to.value)
  }

  function Meeting(q: Query): Entry -> bool {
    e => Matches(e, q)
  }

  function Filter(s: seq<Entry>, keep: Entry -> bool): seq<Entry> {
    if s == [] then [] else Filter(s[..|s| - 1], keep) + (if keep(s[|s| - 1]) then [s[|s| - 1]] else [])
  }

  lemma {:induction false} FilterTwice(s: seq<Entry>, f: Entry -> bool, g: Entry -> bool, both: Entry -> bool)
    requires forall e :: both(e) <==> f(e) && g(e)
    ensures Filter(Filter(s, f), g) == Filter(s, both)
  {
    if s != [] {
      var rest, e := s[..|s| - 1], s[|s| - 1];
      FilterTwice(rest, f, g, both);
      if f(e) {
        assert (Filter(rest, f) + [e])[..|Filter(rest, f)|] == Filter(rest, f);
      } else {
        assert Filter(rest, f) + [] == Filter(rest, f);
      }
    }
  }

  /** A filter keeps exactly what it is meant to keep. */
  lemma {:induction false} FilterMembers(s: seq<Entry>, keep: Entry -> bool)
    ensures forall e :: e in Filter(s, keep) <==> e in s && keep(e)
    ensures |Filter(s, keep)| == Count(s, keep)
  {
    if s != [] {
      FilterMembers(s[..|s| - 1], keep);
      assert s == s[..|s| - 1] + [s[|s| - 1]];
    }
  }

  function Count(s: seq<Entry>, keep: Entry -> bool): nat {
    if s == [] then 0 else Count(s[..|s| - 1], keep) + if keep(s[|s| - 1]) then 1 else 0
  }

  lemma {:induction false} CountFront(s: seq<Entry>, keep: Entry -> bool)
    requires s != []
    ensures Count(s, keep) == Count(s[1..], keep) + if keep(s[0]) then 1 else 0
  {
    if |s| > 1 {
      assert s[..|s| - 1][1..] == s[1..][..|s| - 2];
      CountFront(s[..|s| - 1], keep);
    } else {
      assert s[1..] == [] && s[..0] == [];
    }
  }

  lemma {:induction false} CountReversed(s: seq<Entry>, keep: Entry -> bool)
    ensures Count(Reversed(s), keep) == Count(s, keep)
  {
    if s != [] {
      CountReversed(s[1..], keep);
      CountFront(s, keep);
      assert (Reversed(s[1..]) + [s[0]])[..|s| - 1] == Reversed(s[1..]);
    }
  }

  lemma ReversedFilter(entries: seq<Entry>, q: Query)
    ensures Count(Reversed(entries), Meeting(q)) == Count(entries, Meeting(q))
    ensures forall e :: e in Reversed(entries) ==> e in entries
  {
    CountReversed(entries, Meeting(q));
    hide Matches;
    forall e | e in Reversed(entries)
      ensures e in entries
    {
      var i :| 0 <= i < |entries| && Reversed(entries)[i] == e;
      assert entries[|entries| - 1 - i] == e;
    }
  }

  lemma {:induction false} FilterAll(s: seq<Entry>, keep: Entry -> bool)
    requires forall e :: keep(e)
    ensures Filter(s, keep) == s
  {
    if s != [] {
      FilterAll(s[..|s| - 1], keep);
    }
  }

  function PageSize(q: Query): nat {
    if q.pageSize < 1 then 1 else if q.pageSize > MAX_PAGE_SIZE then MAX_PAGE_SIZE else q.pageSize
  }

  function PageNumber(q: Query): U64 {
    if q.page == 0 then 1 else q.page
  }

  /** Where a page starts, in 64-bit arithmetic that wraps. */
  function Start(page: U64, size: nat): (start: U64)
    requires 1 <= page
    ensures (page - 1) * size < U64_SIZE ==> start == (page - 1) * size
  {
    ((page - 1) * size) % U64_SIZE
  }

  /** Up to `size` elements from `start` on. */
  function SliceFrom(all: seq<Entry>, start: nat, size: nat): seq<Entry> {
    if start >= |all| then [] else all[start..if |all| <= start + size then |all| else start + size]
  }

  function Page(all: seq<Entry>, page: U64, size: nat): seq<Entry>
    requires 1 <= page
  {
    SliceFrom(all, Start(page, size), size)
  }

  /** Pages 1 to `n`, one after the other. */
  function Pages(all: seq<Entry>, n: nat, size: nat): seq<Entry>
    requires n < U64_SIZE
  {
    if n == 0 then [] else Pages(all, n - 1, size) + Page(all, n, size)
  }

  /** As long as no start wraps, the pages in order are the list from its beginning, with nothing twice or missing. */
  lemma {:induction false} PagesConcatenate(all: seq<Entry>, n: nat, size: nat)
    requires 1 <= size && n * size < U64_SIZE && n < U64_SIZE
    ensures Pages(all, n, size) == if |all| <= n * size then all else all[..n * size]
  {
    if n > 0 {
      MulStep(n, size);
      PagesConcatenate(all, n - 1, size);
      PageAt(all, n, size, (n - 1) * size);
      PrefixGrows(all, (n - 1) * size, size);
      hide Page, SliceFrom;
    }
  }

  lemma PrefixGrows(all: seq<Entry>, start: nat, size: nat)
    ensures (if |all| <= start then all else all[..start]) + SliceFrom(all, start, size) ==
            if |all| <= start + size then all else all[..start + size]
  {
  }

  lemma MulStep(n: nat, size: nat)
    requires 0 < n
    ensures n * size == (n - 1) * size + size
  {
  }

  lemma PageAt(all: seq<Entry>, page: U64, size: nat, start: nat)
    requires 1 <= page && start == (page - 1) * size && start < U64_SIZE
    ensures Page(all, page, size) == SliceFrom(all, start, size)
  {
  }

  /** For every filter and page size, the pages up to one per entry are exactly the filtered snapshot. */
  lemma AllPagesAreTheSnapshot(all: seq<Entry>, q: Query)
    requires |all| <= AUDIT_LOG_CAP
    ensures var kept := Filter(all, Meeting(q)); Pages(kept, AUDIT_LOG_CAP, PageSize(q)) == kept
  {
    var kept := Filter(all, Meeting(q));
    FilterShrinks(all, Meeting(q));
    PagesConcatenate(kept, AUDIT_LOG_CAP, PageSize(q));
  }

  lemma {:induction false} FilterShrinks(s: seq<Entry>, keep: Entry -> bool)
    ensures |Filter(s, keep)| <= |s|
  {
    if s != [] {
      FilterShrinks(s[..|s| - 1], keep);
    }
  }

  /** The page as it is meant: its start is a number, not a 64-bit word. */
  function MeantPage(all: seq<Entry>, page: nat, size: nat): seq<Entry>
    requires 1 <= page
  {
    SliceFrom(all, (page - 1) * size, size)
  }

  /** A page is the one that is meant exactly if its start does not wrap, or wraps to behind the last entry. */
  lemma PageIsMeantIff(all: seq<Entry>, page: U64, size: nat)
    requires 1 <= page && 1 <= size && |all| < U64_SIZE
    ensures Page(all, page, size) == MeantPage(all, page, size) <==>
            (page - 1) * size < U64_SIZE || Start(page, size) >= |all|
  {
    var offset := (page - 1) * size;
    assert Page(all, page, size) == SliceFrom(all, Start(page, size), size);
    assert MeantPage(all, page, size) == SliceFrom(all, offset, size);
    hide Page, MeantPage, Start;
    if offset >= U64_SIZE && Start(page, size) < |all| {
      assert |SliceFrom(all, Start(page, size), size)| > 0;
    }
  }

  /** Page 2^63 + 1 at two entries a page is the first page again. */
  lemma WrappedPageRepeats(all: seq<Entry>)
    ensures Page(all, 0x8000_0000_0000_0001, 2) == Page(all, 1, 2)
  {
  }

  class AuditLog {
    var entries: seq<Entry>
    var file: Option<seq<Line>>     // what the open file holds; none if it cannot be opened
    ghost var all: seq<Entry>       // every entry read at the start or recorded since

    ghost predicate Valid()
      reads this
    {
      entries == Last(all, 500)
    }

    /** The file holds everything the log has seen, and can be read to its end. */
    ghost predicate FullyWritten()
      reads this
    {
      file.Some? && Intact(file.value) && Parsed(file.value) == all
    }

    /** `onDisk` is the file's content if it can be read; `writable` says whether it can then be opened to append. */
    constructor (onDisk: Option<seq<Line>>, writable: bool)
      ensures Valid()
      ensures all == if onDisk.Some? then Parsed(onDisk.value) else []
      ensures file == if !writable then None else if onDisk == None then Some([]) else onDisk
      ensures writable && (onDisk.Some? ==> Intact(onDisk.value)) ==> FullyWritten()
    {
      var ring: seq<Entry> := [];
      ghost var seen: seq<Entry> := [];
      if onDisk.Some? {
        var lines := onDisk.value;
        var i := 0;
        while i < |lines| && !lines[i].Broken?
          invariant i <= |lines|
          invariant ring == Last(seen, AUDIT_LOG_CAP)
          invariant Parsed(lines) == seen + Parsed(lines[i..])
        {
          assert lines[i..][1..] == lines[i + 1..];
          if lines[i].Good? {
            PushKeepsLast(seen, lines[i].entry, AUDIT_LOG_CAP);
            seen := seen + [lines[i].entry];
            ring := (if |ring| >= AUDIT_LOG_CAP then ring[1..] else ring) + [lines[i].entry];
          }
          i := i + 1;
        }
      }
      entries := ring;
      all := seen;
      file := if !writable then None else if onDisk == None then Some([]) else onDisk;
    }

    /** `written` says whether the line reached the file. */
    method Record(e: Entry, written: bool)
      requires Valid()
      modifies this
      ensures Valid()
      ensures all == old(all) + [e]
      ensures file == if old(file).Some? && written then Some(old(file).value + [Good(e)]) else old(file)
      ensures old(FullyWritten()) && written ==> FullyWritten()
    {
      if FullyWritten() {
        ParsedAppend(file.value, [Good(e)]);
        assert [Good(e)][1..] == [];
      }
      if file.Some? && written {
        file := Some(file.value + [Good(e)]);
      }
      PushKeepsLast(all, e, AUDIT_LOG_CAP);
      if |entries| >= AUDIT_LOG_CAP {
        entries := entries[1..];
      }
      entries := entries + [e];
      all := all + [e];
    }

    method Snapshot() returns (s: seq<Entry>)
      ensures s == Reversed(entries)
    {
      s := [];
      var i := |entries|;
      while i > 0
        invariant 0 <= i <= |entries| && |s| == |entries| - i
        invariant forall k :: 0 <= k < |s| ==> s[k] == entries[|entries| - 1 - k]
      {
        i := i - 1;
        s := s + [entries[i]];
      }
    }

    method Retain(s: seq<Entry>, keep: Entry -> bool) returns (r: seq<Entry>)
      ensures r == Filter(s, keep)
    {
      r := [];
      var i := 0;
      while i < |s|
        invariant i <= |s| && r == Filter(s[..i], keep)
      {
        assert s[..i + 1][..i] == s[..i];
        if keep(s[i]) {
          r := r + [s[i]];
        }
        i := i + 1;
      }
      assert s[..i] == s;
    }

    /** The filters one after the other, each only if it is given. */
    method Select(q: Query) returns (s: seq<Entry>)
      ensures s == Filter(Reversed(entries), Meeting(q))
    {
      s := Snapshot();
      ghost var all := s;
      var f0 := (e: Entry) => q.action != "" ==> e.action == q.action;
      var f1 := (e: Entry) => q.ip != "" ==> Contains(e.ip, q.ip);
      var f2 := (e: Entry) => q.from.Some? ==> q.from.value <= e.at;
      var f3 := (e: Entry) => q.to.Some? ==> e.at <= q.to.value;
      ghost var f01, f012 := (e: Entry) => f0(e) && f1(e), (e: Entry) => f0(e) && f1(e) && f2(e);
      if q.action != "" {
        s := Retain(s, f0);
      } else {
        FilterAll(s, f0);
      }
      ghost var s0 := s;
      if q.ip != "" {
        s := Retain(s, f1);
      } else {
        FilterAll(s, f1);
      }
      ghost var s1 := s;
      if q.from.Some? {
        s := Retain(s, f2);
      } else {
        FilterAll(s, f2);
      }
      ghost var s2 := s;
      if q.to.Some? {
        s := Retain(s, f3);
      } else {
        FilterAll(s, f3);
      }
      FilterTwice(all, f0, f1, f01);
      FilterTwice(all, f01, f2, f012);
      FilterTwice(all, f012, f3, Meeting(q));
    }

    method Slice(all: seq<Entry>, page: U64, size: nat) returns (items: seq<Entry>)
      requires 1 <= page
      ensures items == Page(all, page, size)
    {
      var start := ((page - 1) * size) % U64_SIZE;
      if start >= |all| {
        return [];
      }
      return all[start..if |all| <= start + size then |all| else start + size];
    }

    /**
     * The page and the size asked for, or the nearest that there are; and on the page nothing but entries of the
     * log that meet each filter given, of which `total` tells how many there are.
     */
    method ApiAudit(q: Query) returns (total: nat, page: U64, pageSize: nat, items: seq<Entry>)
      ensures var kept := Filter(Reversed(entries), Meeting(q));
        && total == |kept| && page == PageNumber(q) && pageSize == PageSize(q)
        && items == Page(kept, page, pageSize)
        && total == Count(entries, Meeting(q))
      ensures page == if q.page >= 1 then q.page else 1
      ensures 1 <= q.pageSize <= 200 ==> pageSize == q.pageSize
      ensures q.pageSize < 1 ==> pageSize == 1
      ensures q.pageSize > 200 ==> pageSize == 200
      ensures |items| <= pageSize
      ensures forall e :: e in items ==>
                && e in entries
                && (q.action != "" ==> e.action == q.action)
                && (q.ip != "" ==> exists i :: 0 <= i <= |e.ip| && OccursAt(e.ip, q.ip, i))
                && (q.from.Some? ==> q.from.value <= e.at)
                && (q.to.Some? ==> e.at <= q.to.value)
    {
      ReversedFilter(entries, q);
      FilterMembers(Reversed(entries), Meeting(q));
      hide Filter, Reversed, Count;
      page := if q.page == 0 then 1 else q.page;
      pageSize := if q.pageSize < 1 then 1 else if q.pageSize > MAX_PAGE_SIZE then MAX_PAGE_SIZE else q.pageSize;
      var all := Select(q);
      total := |all|;
      items := Slice(all, page, pageSize);
      forall e | e in items
        ensures e in all
      {
        PageMember(all, page, pageSize, e);
      }
    }
  }

  lemma PageMember(all: seq<Entry>, page: U64, size: nat, e: Entry)
    requires 1 <= page && e in Page(all, page, size)
    ensures e in all
  {
  }

  /** Any number of records that reach the file, and then a restart: the new log is the old one. */
  method RecordAndRestart(log: AuditLog, entries: seq<Entry>) returns (again: AuditLog)
    requires log.Valid() && log.FullyWritten()
    modifies log
    ensures log.Valid() && log.all == old(log.all) + entries
    ensures again.Valid() && again.all == log.all && again.entries == log.entries && again.file == log.file
    ensures fresh(again) && again.FullyWritten()
  {
    var i := 0;
    while i < |entries|
      invariant i <= |entries|
      invariant log.Valid() && log.FullyWritten() && log.all == old(log.all) + entries[..i]
    {
      log.Record(entries[i], true);
      i := i + 1;
    }
    assert entries[..i] == entries;
    again := new AuditLog(log.file, true);
  }
}
