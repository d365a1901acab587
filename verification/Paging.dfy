/** Message history paging: offset and limit, the ordered slice, and the page count. */
module Paging {
  import opened Ids

  /** Query parameters, as the endpoint admits them. */
  datatype PaginationParams = PaginationParams(page: int, pageSize: int) {
    predicate Valid() {
      page >= 1 && 1 <= pageSize <= 200
    }

    function Offset(): int {
      (page - 1) * pageSize
    }

    function Limit(): int {
      pageSize
    }
  }

  /** The stored messages, in the order the query sorts them by. */
  datatype Stored<T> = Stored(conversationId: Uuid, message: T)

  /** The messages of one conversation, in order. */
  function History<T>(table: seq<Stored<T>>, c: Uuid): seq<T> {
    if table == [] then []
    else
      (if table[0].conversationId == c then [table[0].message] else []) + History(table[1..], c)
  }

  function Clamp(i: int, n: nat): nat {
    if i < 0 then 0 else if i < n then i else n
  }

  /** `OFFSET offset LIMIT limit` over an ordered result. */
  function Slice<T>(history: seq<T>, limit: nat, offset: nat): seq<T> {
    history[Clamp(offset, |history|)..Clamp(offset + limit, |history|)]
  }

  /** `max(1, -(-total // page_size))`; dividing by a positive number rounds down, as `//` does. */
  function PageCount(total: int, pageSize: int): int
    requires total >= 0 && pageSize >= 1
  {
    var pages := -((-total) / pageSize);
    if pages < 1 then 1 else pages
  }

  datatype MessagePage<T> = MessagePage(items: seq<T>, total: nat, page: int, pageSize: int)

  datatype MessageListResponse<T> = MessageListResponse(items: seq<T>, total: nat, page: int, pageSize: int, pages: int)

  /** `MessageListResponse.create`. */
  function CreateResponse<T>(result: MessagePage<T>): MessageListResponse<T>
    requires result.pageSize >= 1
  {
    MessageListResponse(result.items, result.total, result.page, result.pageSize,
                        PageCount(result.total, result.pageSize))
  }

  /** The service call. The slice and the count are two queries, so each sees its own table. */
  function ListConversationMessages<T>(owned: bool, atSlice: seq<Stored<T>>, atCount: seq<Stored<T>>,
                                       c: Uuid, p: PaginationParams): Option<MessagePage<T>>
    requires p.Valid()
  {
    if !owned then None
    else
      OffsetIsNat(p);
      Some(MessagePage(Slice(History(atSlice, c), p.Limit(), p.Offset()), |History(atCount, c)|, p.page, p.pageSize))
  }

  lemma OffsetIsNat(p: PaginationParams)
    requires p.Valid()
    ensures p.Offset() >= 0
  {
  }

  /** The negated floor division is the exact ceiling, with a minimum of one page. */
  lemma PageCountIsCeiling(total: int, pageSize: int)
    requires total >= 0 && pageSize >= 1
    ensures PageCount(total, pageSize) >= 1
    ensures total <= PageCount(total, pageSize) * pageSize
    ensures PageCount(total, pageSize) == 1 || (PageCount(total, pageSize) - 1) * pageSize < total
  {
    var q, r := (-total) / pageSize, (-total) % pageSize;
    assert -total == q * pageSize + r;
    assert total == (-q) * pageSize - r;
    if -q < 1 {
      assert (-q) * pageSize <= 0;
    } else {
      assert (-q - 1) * pageSize == (-q) * pageSize - pageSize;
    }
  }

  function PageOf<T>(history: seq<T>, page: int, pageSize: int): seq<T>
    requires page >= 1 && pageSize >= 1
  {
    Slice(history, pageSize, (page - 1) * pageSize)
  }

  /** Pages 1..n, one after another. */
  function Pages<T>(history: seq<T>, n: nat, pageSize: int): seq<T>
    requires pageSize >= 1
  {
    if n == 0 then [] else Pages(history, n - 1, pageSize) + PageOf(history, n, pageSize)
  }

  lemma {:induction false} PagesArePrefix<T>(history: seq<T>, n: nat, pageSize: int)
    requires pageSize >= 1
    ensures Pages(history, n, pageSize) == history[..Clamp(n * pageSize, |history|)]
  {
    if n > 0 {
      PagesArePrefix(history, n - 1, pageSize);
      MulMonotone(0, n - 1, pageSize);
      SliceExtendsPrefix(history, pageSize, (n - 1) * pageSize);
      assert n * pageSize == (n - 1) * pageSize + pageSize;
    }
  }

  lemma SliceExtendsPrefix<T>(history: seq<T>, limit: nat, offset: nat)
    ensures history[..Clamp(offset, |history|)] + Slice(history, limit, offset) ==
      history[..Clamp(offset + limit, |history|)]
  {
  }

  /** Pages 1..PageCount are the whole history with every message once and in order; every page but the
      last is full, and every later page is empty. */
  lemma PagesPartitionHistory<T>(history: seq<T>, pageSize: int)
    requires pageSize >= 1
    ensures Pages(history, PageCount(|history|, pageSize), pageSize) == history
    ensures forall p :: 1 <= p < PageCount(|history|, pageSize) ==> |PageOf(history, p, pageSize)| == pageSize
    ensures forall p :: p > PageCount(|history|, pageSize) ==> PageOf(history, p, pageSize) == []
    ensures history != [] ==> PageOf(history, PageCount(|history|, pageSize), pageSize) != []
  {
    PageCountIsCeiling(|history|, pageSize);
    PagesArePrefix(history, PageCount(|history|, pageSize), pageSize);
    forall p | 1 <= p < PageCount(|history|, pageSize) ensures |PageOf(history, p, pageSize)| == pageSize {
      EarlierPageIsFull(history, p, pageSize);
    }
    forall p | p > PageCount(|history|, pageSize) ensures PageOf(history, p, pageSize) == [] {
      LaterPageIsEmpty(history, p, pageSize);
    }
  }

  lemma EarlierPageIsFull<T>(history: seq<T>, p: int, pageSize: int)
    requires pageSize >= 1 && 1 <= p < PageCount(|history|, pageSize)
    ensures |PageOf(history, p, pageSize)| == pageSize
  {
    PageCountIsCeiling(|history|, pageSize);
    MulMonotone(p, PageCount(|history|, pageSize) - 1, pageSize);
    MulMonotone(0, p - 1, pageSize);
    assert (p - 1) * pageSize + pageSize == p * pageSize;
  }

  lemma LaterPageIsEmpty<T>(history: seq<T>, p: int, pageSize: int)
    requires pageSize >= 1 && p > PageCount(|history|, pageSize)
    ensures PageOf(history, p, pageSize) == []
  {
    PageCountIsCeiling(|history|, pageSize);
    MulMonotone(PageCount(|history|, pageSize), p - 1, pageSize);
  }

  lemma MulMonotone(a: int, b: int, k: int)
    requires a <= b && k >= 0
    ensures a * k <= b * k
  {
    assert b * k == a * k + (b - a) * k;
  }

  lemma {:induction false} HistoryConcat<T>(a: seq<Stored<T>>, b: seq<Stored<T>>, c: Uuid)
    ensures History(a + b, c) == History(a, c) + History(b, c)
  {
    if a == [] {
      assert a + b == b;
    } else {
      var whole, own := a + b, if a[0].conversationId == c then [a[0].message] else [];
      assert whole[0] == a[0] && whole[1..] == a[1..] + b;
      HistoryConcat(a[1..], b, c);
      calc {
        History(whole, c);
        own + History(a[1..] + b, c);
        own + (History(a[1..], c) + History(b, c));
        (own + History(a[1..], c)) + History(b, c);
      }
    }
  }

  /** Rows that sort last never move a message between pages: a full page stays as it was, and the last,
      partial page only grows at its end. The page count never shrinks. */
  lemma AppendKeepsPages<T>(history: seq<T>, more: seq<T>, page: int, pageSize: int)
    requires page >= 1 && pageSize >= 1
    ensures PageOf(history, page, pageSize) <= PageOf(history + more, page, pageSize)
    ensures |PageOf(history, page, pageSize)| == pageSize ==>
      PageOf(history + more, page, pageSize) == PageOf(history, page, pageSize)
    ensures PageCount(|history|, pageSize) <= PageCount(|history + more|, pageSize)
  {
    MulMonotone(0, page - 1, pageSize);
    SliceGrows(history, more, pageSize, (page - 1) * pageSize);
    PageCountGrows(|history|, |history + more|, pageSize);
  }

  lemma SliceGrows<T>(history: seq<T>, more: seq<T>, limit: nat, offset: nat)
    ensures Slice(history, limit, offset) <= Slice(history + more, limit, offset)
    ensures |Slice(history, limit, offset)| == limit ==>
      Slice(history + more, limit, offset) == Slice(history, limit, offset)
  {
  }

  lemma PageCountGrows(total: nat, larger: nat, pageSize: int)
    requires total <= larger && pageSize >= 1
    ensures PageCount(total, pageSize) <= PageCount(larger, pageSize)
  {
    var n, m := PageCount(total, pageSize), PageCount(larger, pageSize);
    PageCountIsCeiling(total, pageSize);
    PageCountIsCeiling(larger, pageSize);
    if m < n {
      MulMonotone(m, n - 1, pageSize);
    }
  }

  /** A listing that messages are appended under, between its two queries, still returns the requested page
      of the counted history up to the moment of the slice, and never more items than that page holds. */
  lemma ListingIsConsistent<T>(atSlice: seq<Stored<T>>, later: seq<Stored<T>>, c: Uuid, p: PaginationParams)
    requires p.Valid()
    ensures ListConversationMessages(false, atSlice, atSlice + later, c, p) == None
    ensures var page := ListConversationMessages(true, atSlice, atSlice + later, c, p);
            && page.Some?
            && page.value.items == PageOf(History(atSlice, c), p.page, p.pageSize)
            && page.value.items <= PageOf(History(atSlice + later, c), p.page, p.pageSize)
            && page.value.total == |History(atSlice, c)| + |History(later, c)|
            && page.value.page == p.page && page.value.pageSize == p.pageSize
            && (page.value.items != [] ==> p.page <= PageCount(page.value.total, p.pageSize))
  {
    OffsetIsNat(p);
    HistoryConcat(atSlice, later, c);
    AppendKeepsPages(History(atSlice, c), History(later, c), p.page, p.pageSize);
    PagesPartitionHistory(History(atSlice, c), p.pageSize);
  }

  /** The response repeats the request, and its page count is the number of pages that hold the counted messages. */
  lemma ResponseCountsPages<T>(table: seq<Stored<T>>, c: Uuid, p: PaginationParams)
    requires p.Valid()
    ensures var response := CreateResponse(ListConversationMessages(true, table, table, c, p).value);
            && response.page == p.page && response.pageSize == p.pageSize
            && response.items == PageOf(History(table, c), p.page, p.pageSize)
            && response.total == |History(table, c)|
            && response.pages >= 1 && Pages(History(table, c), response.pages, p.pageSize) == History(table, c)
            && (History(table, c) != [] ==> PageOf(History(table, c), response.pages, p.pageSize) != [])
  {
    OffsetIsNat(p);
    PageCountIsCeiling(|History(table, c)|, p.pageSize);
    PagesPartitionHistory(History(table, c), p.pageSize);
  }

  // ----- where a message stands -----

  predicate Distinct<T(==)>(xs: seq<T>) {
    forall i, j :: 0 <= i < j < |xs| ==> xs[i] != xs[j]
  }

  lemma {:induction false} HistoryMembers<T>(table: seq<Stored<T>>, c: Uuid)
    ensures forall x :: x in History(table, c) <==> Stored(c, x) in table
  {
    if table != [] {
      HistoryMembers(table[1..], c);
      assert table == [table[0]] + table[1..];
    }
  }

  lemma {:induction false} HistoryDistinct<T>(table: seq<Stored<T>>, c: Uuid)
    requires Distinct(table)
    ensures Distinct(History(table, c))
  {
    if table != [] {
      HistoryDistinct(table[1..], c);
      HistoryMembers(table[1..], c);
    }
  }

  /** A position falls on one page only. */
  lemma PageOfPosition(q: nat, pageSize: int, p: int)
    requires pageSize >= 1 && p >= 1
    ensures (p - 1) * pageSize <= q < p * pageSize <==> p == q / pageSize + 1
  {
    var page := q / pageSize + 1;
    assert q == (page - 1) * pageSize + q % pageSize;
    assert page * pageSize == (page - 1) * pageSize + pageSize;
    if p < page {
      MulMonotone(p, page - 1, pageSize);
    } else if p > page {
      MulMonotone(page, p - 1, pageSize);
    }
  }

  /** Each message of a history without repetitions stands on exactly one page. */
  lemma OnExactlyOnePage<T>(history: seq<T>, x: T, pageSize: int) returns (page: int)
    requires pageSize >= 1 && Distinct(history) && x in history
    ensures page >= 1 && x in PageOf(history, page, pageSize)
    ensures forall p :: p >= 1 && x in PageOf(history, p, pageSize) ==> p == page
  {
    var q :| 0 <= q < |history| && history[q] == x;
    page := q / pageSize + 1;
    OnPageOfPosition(history, q, pageSize);
    forall p | p >= 1 && x in PageOf(history, p, pageSize) ensures p == page {
      OnlyOnPageOfPosition(history, q, pageSize, p);
    }
  }

  lemma OnPageOfPosition<T>(history: seq<T>, q: nat, pageSize: int)
    requires pageSize >= 1 && q < |history|
    ensures history[q] in PageOf(history, q / pageSize + 1, pageSize)
  {
    var page := q / pageSize + 1;
    PageOfPosition(q, pageSize, page);
    MulMonotone(0, page - 1, pageSize);
    SliceHas(history, pageSize, (page - 1) * pageSize, q);
  }

  lemma SliceHas<T>(history: seq<T>, limit: nat, offset: nat, q: nat)
    requires offset <= q < offset + limit && q < |history|
    ensures history[q] in Slice(history, limit, offset)
  {
    assert Slice(history, limit, offset)[q - offset] == history[q];
  }

  lemma OnlyOnPageOfPosition<T>(history: seq<T>, q: nat, pageSize: int, p: int)
    requires pageSize >= 1 && p >= 1 && Distinct(history) && q < |history|
    requires history[q] in PageOf(history, p, pageSize)
    ensures p == q / pageSize + 1
  {
    MulMonotone(0, p - 1, pageSize);
    var i :| 0 <= i < |PageOf(history, p, pageSize)| && PageOf(history, p, pageSize)[i] == history[q];
    assert history[(p - 1) * pageSize + i] == history[q];
    assert p * pageSize == (p - 1) * pageSize + pageSize;
    PageOfPosition(q, pageSize, p);
  }
}
