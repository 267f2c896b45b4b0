/** The pagination loop of the SaaS corpus adapter, against any client. */
module Pagination {
  import opened Text

  /** One fetch: it fails, or it returns something without an items array, or a page. */
  datatype Reply<+Item> =
    | FetchError
    | NotAPage(notes: seq<string>)
    | Page(items: seq<Item>, nextCursor: Option<string>, notes: seq<string>)

  datatype Mapped<+Record> = Mapped(record: Option<Record>, notes: seq<string>)

  datatype Warning =
    | MissingSourceConfig | ClientWarning(note: string) | MappingWarning(note: string)
    | FetchFailed | InvalidPage | RecordsTruncated | PageLimitReached | CursorRepeated

  type Client<!Item> = (nat, Option<string>) -> Reply<Item>

  type Mapper<!Item, !Record> = (Item, nat) -> Mapped<Record>

  datatype Limits = Limits(maxPages: nat, maxRecords: nat)

  function NextCursor<Item>(t: TextRules, page: Reply<Item>): Option<string>
    requires page.Page?
  {
    if page.nextCursor.Some? && !IsBlank(t, page.nextCursor.value) then page.nextCursor else None
  }

  // ---- What was read ----

  function ItemsOf<Item>(pages: seq<Reply<Item>>): seq<Item> {
    if pages == [] then []
    else ItemsOf(pages[..|pages| - 1]) + (if pages[|pages| - 1].Page? then pages[|pages| - 1].items else [])
  }

  /** The records of the first k items that could be mapped; an item is mapped with its position. */
  function Successes<Item, Record>(mapper: Mapper<Item, Record>, items: seq<Item>, k: nat): seq<Record>
    requires k <= |items|
  {
    if k == 0 then []
    else
      var mapped := mapper(items[k - 1], k - 1);
      Successes(mapper, items, k - 1) + if mapped.record.Some? then [mapped.record.value] else []
  }

  function ClientWarnings(notes: seq<string>): seq<Warning> {
    seq(|notes|, i requires 0 <= i < |notes| => ClientWarning(notes[i]))
  }

  function MappingNotes(notes: seq<string>): seq<Warning> {
    seq(|notes|, i requires 0 <= i < |notes| => MappingWarning(notes[i]))
  }

  /** The mapping warnings of items lo to hi. */
  function MappingWarnings<Item, Record>(mapper: Mapper<Item, Record>, items: seq<Item>, lo: nat, hi: nat): seq<Warning>
    requires lo <= hi <= |items|
  {
    if lo == hi then []
    else MappingWarnings(mapper, items, lo, hi - 1) + MappingNotes(mapper(items[hi - 1], hi - 1).notes)
  }

  lemma {:induction false} SuccessesPrefix<Item, Record>(mapper: Mapper<Item, Record>, items: seq<Item>, more: seq<Item>, k: nat)
    requires k <= |items|
    ensures Successes(mapper, items + more, k) == Successes(mapper, items, k)
  {
    if k > 0 { SuccessesPrefix(mapper, items, more, k - 1); }
  }

  lemma {:induction false} SuccessesGrow<Item, Record>(mapper: Mapper<Item, Record>, items: seq<Item>, j: nat, k: nat)
    requires j <= k <= |items|
    ensures Successes(mapper, items, j) <= Successes(mapper, items, k)
  {
    if j < k { SuccessesGrow(mapper, items, j, k - 1); }
  }

  /** How far reading got: one item further would have needed more records than allowed. */
  ghost predicate ReadTo<Item, Record>(mapper: Mapper<Item, Record>, items: seq<Item>, limit: nat, read: nat) {
    && read <= |items|
    && (forall k :: 0 <= k < read ==> |Successes(mapper, items, k)| < limit)
    && (read < |items| ==> |Successes(mapper, items, read)| >= limit)
  }

  /** Then the records are the first `limit` of all that the items would give. */
  lemma ReadIsTake<Item, Record>(mapper: Mapper<Item, Record>, items: seq<Item>, limit: nat, read: nat)
    requires ReadTo(mapper, items, limit, read) && limit >= 1
    ensures var all, records := Successes(mapper, items, |items|), Successes(mapper, items, read);
      records == if |all| <= limit then all else all[..limit]
  {
    SuccessesGrow(mapper, items, read, |items|);
    if read > 0 {
      assert |Successes(mapper, items, read)| <= |Successes(mapper, items, read - 1)| + 1;
    }
  }

  /** The loop over one page's items, which begin at position `start` of all items. */
  method ReadItems<Item, Record>(mapper: Mapper<Item, Record>, ghost before: seq<Item>, page: seq<Item>,
                                 records: seq<Record>, itemIndex: nat, maxRecords: nat)
    returns (newRecords: seq<Record>, newIndex: nat, hitLimit: bool, warnings: seq<Warning>)
    requires itemIndex == |before| && records == Successes(mapper, before, itemIndex)
    requires ReadTo(mapper, before, maxRecords, itemIndex)
    ensures var items := before + page;
      && |before| <= newIndex <= |items|
      && newRecords == Successes(mapper, items, newIndex)
      && ReadTo(mapper, items, maxRecords, newIndex)
      && (hitLimit <==> newIndex < |items|)
      && warnings == MappingWarnings(mapper, items, |before|, newIndex)
  {
    ghost var items := before + page;
    newRecords, newIndex, hitLimit, warnings := records, itemIndex, false, [];
    forall k | 0 <= k <= |before| ensures Successes(mapper, items, k) == Successes(mapper, before, k) {
      SuccessesPrefix(mapper, before, page, k);
    }
    for i := 0 to |page|
      invariant newIndex == |before| + i && !hitLimit
      invariant newRecords == Successes(mapper, items, newIndex)
      invariant forall k :: 0 <= k < newIndex ==> |Successes(mapper, items, k)| < maxRecords
      invariant warnings == MappingWarnings(mapper, items, |before|, newIndex)
    {
      if |newRecords| >= maxRecords {
        hitLimit := true;
        break;
      }
      assert items[newIndex] == page[i];
      var mapped := mapper(page[i], newIndex);
      warnings := warnings + MappingNotes(mapped.notes);
      if mapped.record.Some? {
        newRecords := newRecords + [mapped.record.value];
      }
      newIndex := newIndex + 1;
    }
  }

  // ---- The fetches ----

  /** Page after page: the first request has no cursor, each later one the cursor of the page before,
      no cursor is sent twice, and only the last request may have brought no page. */
  ghost predicate Fetched<Item>(t: TextRules, client: Client<Item>, requests: seq<Option<string>>, pages: seq<Reply<Item>>) {
    && |pages| <= |requests| <= |pages| + 1
    && (requests != [] ==> requests[0] == None)
    && (forall i :: 0 <= i < |pages| ==> pages[i].Page? && pages[i] == client(i, requests[i]))
    && Following(t, requests, pages) && NeverTwice(requests)
  }

  predicate Following<Item>(t: TextRules, requests: seq<Option<string>>, pages: seq<Reply<Item>>)
    requires |requests| <= |pages| + 1
  {
    forall i :: 0 < i < |requests| ==>
      requests[i].Some? && pages[i - 1].Page? && requests[i] == NextCursor(t, pages[i - 1])
  }

  predicate NeverTwice(requests: seq<Option<string>>) {
    forall i, j :: 0 <= i < j < |requests| ==> requests[i] != requests[j]
  }

  lemma NeverTwiceSnoc(requests: seq<Option<string>>, cursor: Option<string>)
    requires NeverTwice(requests) && cursor !in requests
    ensures NeverTwice(requests + [cursor])
  {
  }

  datatype Stop = Exhausted | OnFetchError | OnInvalidPage(notes: seq<string>) | OnTruncation | OnRepeatedCursor | OnPageLimit

  function StopWarnings(stop: Stop): seq<Warning> {
    match stop
    case Exhausted => []
    case OnFetchError => [FetchFailed]
    case OnInvalidPage(notes) => ClientWarnings(notes) + [InvalidPage]
    case OnTruncation => [RecordsTruncated]
    case OnRepeatedCursor => [CursorRepeated]
    case OnPageLimit => [PageLimitReached]
  }

  /** When each stop happens; the cases exclude each other. */
  ghost predicate StopsFor<Item>(t: TextRules, client: Client<Item>, limits: Limits, requests: seq<Option<string>>,
                                 pages: seq<Reply<Item>>, read: nat, stop: Stop)
    requires Fetched(t, client, requests, pages)
  {
    && (stop.OnTruncation? <==> read < |ItemsOf(pages)|)
    && match stop
       case OnFetchError => |requests| == |pages| + 1 && client(|pages|, requests[|pages|]).FetchError?
       case OnInvalidPage(notes) => |requests| == |pages| + 1 && client(|pages|, requests[|pages|]) == NotAPage(notes)
       case OnTruncation => |requests| == |pages| && pages != []
       case Exhausted => |requests| == |pages| && pages != [] && NextCursor(t, pages[|pages| - 1]).None?
       case OnRepeatedCursor =>
         |requests| == |pages| < limits.maxPages && pages != []
         && NextCursor(t, pages[|pages| - 1]).Some? && NextCursor(t, pages[|pages| - 1]) in requests
       case OnPageLimit => |requests| == |pages| == limits.maxPages && pages != [] && NextCursor(t, pages[|pages| - 1]).Some?
  }

  function Clamp(x: nat, lo: nat, hi: nat): nat { if x < lo then lo else if x > hi then hi else x }

  /** The warnings of the pages, of whose items the first `read` were read. */
  function PageWarnings<Item, Record>(mapper: Mapper<Item, Record>, pages: seq<Reply<Item>>, read: nat): seq<Warning> {
    if pages == [] then []
    else
      var before, page := pages[..|pages| - 1], pages[|pages| - 1];
      var start, items := |ItemsOf(before)|, ItemsOf(pages);
      PageWarnings(mapper, before, read)
      + (if page.Page? then ClientWarnings(page.notes) else [])
      + MappingWarnings(mapper, items, start, Clamp(read, start, |items|))
  }

  lemma {:induction false} AllReadIsStable<Item, Record>(mapper: Mapper<Item, Record>, pages: seq<Reply<Item>>, x: nat, y: nat)
    requires |ItemsOf(pages)| <= x && |ItemsOf(pages)| <= y
    ensures PageWarnings(mapper, pages, x) == PageWarnings(mapper, pages, y)
  {
    if pages != [] {
      AllReadIsStable(mapper, pages[..|pages| - 1], x, y);
    }
  }

  lemma PageAppended<Item, Record>(mapper: Mapper<Item, Record>, pages: seq<Reply<Item>>, page: Reply<Item>, read: nat)
    requires page.Page? && |ItemsOf(pages)| <= read <= |ItemsOf(pages)| + |page.items|
    ensures ItemsOf(pages + [page]) == ItemsOf(pages) + page.items
    ensures PageWarnings(mapper, pages + [page], read)
         == PageWarnings(mapper, pages, |ItemsOf(pages)|) + ClientWarnings(page.notes)
            + MappingWarnings(mapper, ItemsOf(pages) + page.items, |ItemsOf(pages)|, read)
  {
    hide ClientWarnings, MappingWarnings;
    var all := pages + [page];
    assert all[..|all| - 1] == pages;
    AllReadIsStable(mapper, pages, |ItemsOf(pages)|, read);
  }

  /** The cursor that the next request will carry. */
  function CursorAfter<Item>(t: TextRules, pages: seq<Reply<Item>>): Option<string>
    requires pages != [] ==> pages[|pages| - 1].Page?
  {
    if pages == [] then None else NextCursor(t, pages[|pages| - 1])
  }

  lemma RequestSent<Item>(t: TextRules, client: Client<Item>, requests: seq<Option<string>>, pages: seq<Reply<Item>>, cursor: Option<string>)
    requires Fetched(t, client, requests, pages) && |requests| == |pages| && cursor !in requests
    requires cursor == CursorAfter(t, pages) && (pages != [] ==> cursor.Some?)
    ensures Fetched(t, client, requests + [cursor], pages)
  {
    NeverTwiceSnoc(requests, cursor);
    hide NextCursor, NeverTwice;
  }

  lemma PageReceived<Item>(t: TextRules, client: Client<Item>, requests: seq<Option<string>>, pages: seq<Reply<Item>>)
    requires Fetched(t, client, requests, pages) && |requests| == |pages| + 1
    requires client(|pages|, requests[|pages|]).Page?
    ensures Fetched(t, client, requests, pages + [client(|pages|, requests[|pages|])])
  {
  }

  /** All that a run did: what it asked for, what it read and why it stopped. */
  datatype Run<Item> = Run(requests: seq<Option<string>>, pages: seq<Reply<Item>>, read: nat, stop: Stop)

  method LoadPages<Item, Record>(t: TextRules, client: Client<Item>, mapper: Mapper<Item, Record>, limits: Limits)
    returns (records: seq<Record>, warnings: seq<Warning>, run: Run<Item>)
    requires limits.maxPages >= 1 && limits.maxRecords >= 1
    ensures |run.requests| <= limits.maxPages
    ensures Fetched(t, client, run.requests, run.pages)
    ensures ReadTo(mapper, ItemsOf(run.pages), limits.maxRecords, run.read)
    ensures records == Successes(mapper, ItemsOf(run.pages), run.read)
    ensures StopsFor(t, client, limits, run.requests, run.pages, run.read, run.stop)
    ensures warnings == PageWarnings(mapper, run.pages, run.read) + StopWarnings(run.stop)
  {
    hide ClientWarnings, MappingWarnings, PageWarnings, ItemsOf, Successes, ReadTo, NextCursor, Fetched, MappingNotes, Clamp;
    var requests: seq<Option<string>>, pages: seq<Reply<Item>> := [], [];
    var seenCursors: set<string> := {};
    var cursor: Option<string> := None;
    var itemIndex, hitLimit := 0, false;
    records, warnings := [], [];
    NothingRead(mapper, limits.maxRecords);
    NothingFetched(t, client);
    for pageIndex := 0 to limits.maxPages
      invariant |requests| == |pages| == pageIndex && Fetched(t, client, requests, pages)
      invariant (pages != [] ==> pages[|pages| - 1].Page?) && cursor == CursorAfter(t, pages)
      invariant pages != [] ==> cursor.Some?
      invariant None in requests <==> pages != []
      invariant forall c :: Some(c) in requests <==> c in seenCursors
      invariant itemIndex == |ItemsOf(pages)| && records == Successes(mapper, ItemsOf(pages), itemIndex)
      invariant ReadTo(mapper, ItemsOf(pages), limits.maxRecords, itemIndex)
      invariant pageIndex < limits.maxPages ==> warnings == PageWarnings(mapper, pages, itemIndex)
      invariant pageIndex == limits.maxPages ==> warnings == PageWarnings(mapper, pages, itemIndex) + [PageLimitReached]
    {
      if cursor.Some? {
        if cursor.value in seenCursors {
          return records, warnings + [CursorRepeated], Run(requests, pages, itemIndex, OnRepeatedCursor);
        }
        seenCursors := seenCursors + {cursor.value};
      }
      RequestSent(t, client, requests, pages, cursor);
      requests := requests + [cursor];
      var reply := client(pageIndex, cursor);
      if reply.FetchError? {
        return records, warnings + [FetchFailed], Run(requests, pages, itemIndex, OnFetchError);
      }
      warnings := warnings + ClientWarnings(reply.notes);
      if reply.NotAPage? {
        ConcatAssoc(PageWarnings(mapper, pages, itemIndex), ClientWarnings(reply.notes), [InvalidPage]);
        return records, warnings + [InvalidPage], Run(requests, pages, itemIndex, OnInvalidPage(reply.notes));
      }
      ghost var before := ItemsOf(pages);
      var mappingWarnings;
      records, itemIndex, hitLimit, mappingWarnings := ReadItems(mapper, before, reply.items, records, itemIndex, limits.maxRecords);
      warnings := warnings + mappingWarnings;
      PageAppended(mapper, pages, reply, itemIndex);
      PageReceived(t, client, requests, pages);
      pages := pages + [reply];
      assert warnings == PageWarnings(mapper, pages, itemIndex);
      assert warnings + [] == warnings;
      if hitLimit {
        return records, warnings + [RecordsTruncated], Run(requests, pages, itemIndex, OnTruncation);
      }
      cursor := NextCursor(t, reply);
      if cursor.None? {
        return records, warnings, Run(requests, pages, itemIndex, Exhausted);
      }
      if pageIndex == limits.maxPages - 1 {
        warnings := warnings + [PageLimitReached];
      }
    }
    run := Run(requests, pages, itemIndex, OnPageLimit);
  }

  lemma NothingRead<Item, Record>(mapper: Mapper<Item, Record>, limit: nat)
    ensures ItemsOf<Item>([]) == [] && Successes(mapper, ItemsOf([]), 0) == []
    ensures ReadTo(mapper, ItemsOf([]), limit, 0) && PageWarnings(mapper, [], 0) == []
  {
  }

  lemma NothingFetched<Item>(t: TextRules, client: Client<Item>)
    ensures Fetched(t, client, [], [])
  {
  }

  // ---- What the source promises ----

  /** No source config: no fetch at all. A limit that is given must be positive, which the source
      checks; otherwise the adapter's default holds. */
  method Load<Item, Record>(t: TextRules, client: Client<Item>, mapper: Mapper<Item, Record>, config: Option<Limits>)
    returns (records: seq<Record>, warnings: seq<Warning>, run: Option<Run<Item>>)
    requires config.Some? ==> config.value.maxPages >= 1 && config.value.maxRecords >= 1
    ensures config.None? ==> records == [] && warnings == [MissingSourceConfig] && run.None?
    ensures config.Some? ==> run.Some? && |run.value.requests| <= config.value.maxPages
    ensures config.Some? ==>
      var items := ItemsOf(run.value.pages);
      var all := Successes(mapper, items, |items|);
      && Fetched(t, client, run.value.requests, run.value.pages)
      && records == (if |all| <= config.value.maxRecords then all else all[..config.value.maxRecords])
      && (RecordsTruncated in warnings <==> run.value.read < |items|)
  {
    if config.None? {
      return [], [MissingSourceConfig], None;
    }
    hide Successes, ItemsOf, ReadTo, PageWarnings, Fetched;
    var result;
    records, warnings, result := LoadPages(t, client, mapper, config.value);
    ReadIsTake(mapper, ItemsOf(result.pages), config.value.maxRecords, result.read);
    OnlyStopTruncates(mapper, result.pages, result.read, result.stop);
    run := Some(result);
  }

  lemma {:induction false} PagesDoNotTruncate<Item, Record>(mapper: Mapper<Item, Record>, pages: seq<Reply<Item>>, read: nat)
    ensures forall w :: w in PageWarnings(mapper, pages, read) ==> w.ClientWarning? || w.MappingWarning?
  {
    if pages != [] {
      var before := pages[..|pages| - 1];
      var start, items := |ItemsOf(before)|, ItemsOf(pages);
      PagesDoNotTruncate(mapper, before, read);
      MappingOnly(mapper, items, start, Clamp(read, start, |items|));
      hide MappingWarnings;
    }
  }

  lemma {:induction false} MappingOnly<Item, Record>(mapper: Mapper<Item, Record>, items: seq<Item>, lo: nat, hi: nat)
    requires lo <= hi <= |items|
    ensures forall w :: w in MappingWarnings(mapper, items, lo, hi) ==> w.MappingWarning?
  {
    if lo < hi { MappingOnly(mapper, items, lo, hi - 1); }
  }

  lemma OnlyStopTruncates<Item, Record>(mapper: Mapper<Item, Record>, pages: seq<Reply<Item>>, read: nat, stop: Stop)
    ensures RecordsTruncated in PageWarnings(mapper, pages, read) + StopWarnings(stop) <==> stop.OnTruncation?
  {
    PagesDoNotTruncate(mapper, pages, read);
    hide PageWarnings;
    assert forall w :: w in StopWarnings(stop) && stop.OnInvalidPage? ==> w.ClientWarning? || w == InvalidPage;
  }
}
