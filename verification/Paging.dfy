/**
  Pages of a list: the pager of the operator console (cmd/console/paging.go) and the window
  the in-memory receipt list answers with.  An address is its path and its parameters; how
  parameters are written into a URL is not modelled.
 */
module Paging {
  import opened Common
  import Decimal

  // ---------- windows ----------

  /** What LIMIT and OFFSET leave of a list; a limit that is not positive leaves the rest of it. */
  function Window<T>(rows: seq<T>, offset: nat, limit: int): (shown: seq<T>)
    ensures 0 < limit ==> |shown| <= limit
    ensures offset < |rows| ==> shown <= rows[offset..]
  {
    if |rows| <= offset then []
    else if 0 < limit < |rows| - offset then rows[offset..offset + limit]
    else rows[offset..]
  }

  /** The first n windows of a size, one after the other. */
  function Windows<T>(rows: seq<T>, size: nat, n: nat): seq<T> {
    if n == 0 then [] else Windows(rows, size, n - 1) + Window(rows, (n - 1) * size, size)
  }

  function Least(a: nat, b: nat): nat { if a < b then a else b }

  /** Windows side by side tile the list: they show its rows once each, in order, and all of them in the end. */
  lemma {:induction false} WindowsTile<T>(rows: seq<T>, size: nat, n: nat)
    requires 0 < size
    ensures Windows(rows, size, n) == rows[..Least(n * size, |rows|)]
    ensures |rows| <= n * size ==> Windows(rows, size, n) == rows
  {
    if n != 0 {
      WindowsTile(rows, size, n - 1);
      assert n * size == (n - 1) * size + size;
      if (n - 1) * size < |rows| {
        assert Windows(rows, size, n) ==
               rows[..(n - 1) * size] + rows[(n - 1) * size..Least(n * size, |rows|)];
      }
    }
  }

  // ---------- requests ----------

  datatype Address = Address(path: string, query: map<string, seq<string>>) {
    /** The first value of a parameter, or nothing. */
    function Get(key: string): string {
      if key in query && query[key] != [] then query[key][0] else ""
    }
  }

  const DEFAULT_PAGE_SIZE: nat := 50

  function PageSizes(): seq<nat> { [25, 50, 100, 200] }

  datatype PageRequest = PageRequest(limit: int, offset: int, number: int, size: nat)

  /** Arithmetic on Go's 64-bit integers. */
  function Wrapped(n: int): int {
    if Decimal.InInt64(n) then n else (n - Decimal.MIN_INT64) % 0x1_0000_0000_0000_0000 + Decimal.MIN_INT64
  }

  function SizeOf(a: Address): nat {
    var asked := Decimal.ParseInt(a.Get("per"));
    if asked.Some? && (asked.value == 25 || asked.value == 50 || asked.value == 100 || asked.value == 200)
    then asked.value else DEFAULT_PAGE_SIZE
  }

  function NumberOf(a: Address): int {
    var asked := Decimal.ParseInt(a.Get("page"));
    if asked.None? || asked.value < 1 then 1 else asked.value
  }

  function RequestOf(a: Address): PageRequest {
    PageRequest(SizeOf(a) + 1, Wrapped((NumberOf(a) - 1) * SizeOf(a)), NumberOf(a), SizeOf(a))
  }

  /** Reads the size by trying the offered ones in turn. */
  method PageSizeOf(a: Address) returns (size: nat)
    ensures size == SizeOf(a) && size in PageSizes()
  {
    var asked := Decimal.ParseInt(a.Get("per"));
    if asked.None? {
      return DEFAULT_PAGE_SIZE;
    }
    var sizes := PageSizes();
    for i := 0 to |sizes|
      invariant forall k :: 0 <= k < i ==> sizes[k] != asked.value
    {
      if sizes[i] == asked.value {
        return sizes[i];
      }
    }
    assert sizes[0] != asked.value && sizes[1] != asked.value && sizes[2] != asked.value && sizes[3] != asked.value;
    return DEFAULT_PAGE_SIZE;
  }

  method PageOf(a: Address) returns (page: PageRequest)
    ensures page == RequestOf(a)
  {
    var asked := Decimal.ParseInt(a.Get("page"));
    var number := if asked.None? || asked.value < 1 then 1 else asked.value;
    var size := PageSizeOf(a);
    page := PageRequest(size + 1, Wrapped((number - 1) * size), number, size);
  }

  // ---------- addresses ----------

  function WithPage(a: Address, number: int): Address {
    if number <= 1 then a.(query := a.query - {"page"})
    else a.(query := a.query["page" := [Decimal.FormatInt(number)]])
  }

  function WithSize(a: Address, size: nat): Address {
    var top := a.query - {"page"};
    if size == DEFAULT_PAGE_SIZE then a.(query := top - {"per"})
    else a.(query := top["per" := [Decimal.FormatInt(size)]])
  }

  /** Copies the parameters one by one, in whatever order the map gives them. */
  method CloneQuery(query: map<string, seq<string>>) returns (out: map<string, seq<string>>)
    ensures out == query
  {
    out := map[];
    var left := query.Keys;
    while left != {}
      invariant left <= query.Keys && out.Keys == query.Keys - left
      invariant forall key :: key in out ==> out[key] == query[key]
      decreases |left|
    {
      var key :| key in left;
      out := out[key := query[key]];
      left := left - {key};
    }
  }

  method PageURL(a: Address, number: int) returns (url: Address)
    ensures url == WithPage(a, number)
  {
    var query := CloneQuery(a.query);
    if number <= 1 {
      query := query - {"page"};
    } else {
      query := query["page" := [Decimal.FormatInt(number)]];
    }
    url := Address(a.path, query);
  }

  method SizeURL(a: Address, size: nat) returns (url: Address)
    ensures url == WithSize(a, size)
  {
    var query := CloneQuery(a.query);
    query := query - {"page"};
    if size == DEFAULT_PAGE_SIZE {
      query := query - {"per"};
    } else {
      query := query["per" := [Decimal.FormatInt(size)]];
    }
    url := Address(a.path, query);
  }

  /** A page address read back names that page, and every other parameter is as it was. */
  lemma NumberReadBack(a: Address, number: int)
    requires Decimal.InInt64(number)
    ensures var url := WithPage(a, number);
      && NumberOf(url) == (if number < 1 then 1 else number)
      && SizeOf(url) == SizeOf(a) && url.path == a.path
      && url.query - {"page"} == a.query - {"page"}
  {
    Decimal.ParseFormatInt(number);
  }

  /** A size address read back picks that size from the top, and every other parameter is as it was. */
  lemma SizeReadBack(a: Address, size: nat)
    requires size in PageSizes()
    ensures var url := WithSize(a, size);
      && SizeOf(url) == size && NumberOf(url) == 1 && url.path == a.path
      && url.query - {"page", "per"} == a.query - {"page", "per"}
  {
    Decimal.ParseFormatInt(size);
  }

  // ---------- the pager ----------

  datatype SizeOption = SizeOption(value: nat, url: Address, on: bool)

  datatype PageView = PageView(
    number: int, hasPrev: bool, hasNext: bool, prevURL: Option<Address>, nextURL: Option<Address>,
    from: int, to: int, sizes: seq<SizeOption>, rows: bool)

  /** The pager of a page whose rows are those shown. */
  function ViewOf(found: int, shown: int, page: PageRequest, a: Address): PageView {
    PageView(
      page.number, page.number > 1, found > page.size,
      if page.number > 1 then Some(WithPage(a, page.number - 1)) else None,
      if found > page.size then Some(WithPage(a, Wrapped(page.number + 1))) else None,
      if shown == 0 then 0 else Wrapped(page.offset + 1), Wrapped(page.offset + shown),
      SizeOptions(a, page.size, |PageSizes()|), shown > 0)
  }

  function SizeOptions(a: Address, size: nat, n: nat): seq<SizeOption>
    requires n <= |PageSizes()|
  {
    if n == 0 then []
    else SizeOptions(a, size, n - 1) +
         [SizeOption(PageSizes()[n - 1], WithSize(a, PageSizes()[n - 1]), PageSizes()[n - 1] == size)]
  }

  /** Trims the extra row off a result and describes the pager. */
  method Paginate<T>(rows: seq<T>, page: PageRequest, a: Address) returns (shown: seq<T>, view: PageView)
    ensures shown == rows[..Least(page.size, |rows|)]
    ensures view == ViewOf(|rows|, |shown|, page, a)
  {
    var hasPrev, hasNext := page.number > 1, |rows| > page.size;
    shown := rows;
    if hasNext {
      shown := rows[..page.size];
    }
    var from, to := Wrapped(page.offset + 1), Wrapped(page.offset + |shown|);
    if |shown| == 0 {
      from := 0;
    }
    var prevURL, nextURL := None, None;
    if hasPrev {
      var url := PageURL(a, page.number - 1);
      prevURL := Some(url);
    }
    if hasNext {
      var url := PageURL(a, Wrapped(page.number + 1));
      nextURL := Some(url);
    }
    var sizes, offered := [], PageSizes();
    for i := 0 to |offered|
      invariant sizes == SizeOptions(a, page.size, i)
    {
      var url := SizeURL(a, offered[i]);
      sizes := sizes + [SizeOption(offered[i], url, offered[i] == page.size)];
    }
    view := PageView(page.number, hasPrev, hasNext, prevURL, nextURL, from, to, sizes, |shown| > 0);
  }

  // ---------- reading a list to the bottom ----------

  /** The rows and the pager an address gets from a list that holds all. */
  function Screen<T>(all: seq<T>, a: Address): (seq<T>, PageView) {
    var page := RequestOf(a);
    var found := if page.offset < 0 then [] else Window(all, page.offset, page.limit);
    var shown := found[..Least(page.size, |found|)];
    (shown, ViewOf(|found|, |shown|, page, a))
  }

  function ShownOn<T>(all: seq<T>, a: Address): seq<T> { Screen(all, a).0 }

  function NextOf<T>(all: seq<T>, a: Address): Option<Address> { Screen(all, a).1.nextURL }

  /** Each address visited is the one before's next page. */
  predicate Followed<T(==)>(all: seq<T>, visited: seq<Address>) {
    forall i :: 0 < i < |visited| ==> NextOf(all, visited[i - 1]) == Some(visited[i])
  }

  /** Everything shown along the way. */
  function Read<T>(all: seq<T>, visited: seq<Address>): seq<T> {
    if visited == [] then []
    else Read(all, visited[..|visited| - 1]) + ShownOn(all, visited[|visited| - 1])
  }

  /** No list is longer than 64-bit row numbers reach. */
  predicate Readable<T>(all: seq<T>) { |all| + 400 < Decimal.MAX_INT64 }

  /** The request of page k + 1, while the list reaches that far. */
  lemma RequestIs(a: Address, k: nat, most: nat)
    requires most + 400 < Decimal.MAX_INT64 && NumberOf(a) == k + 1 && k * SizeOf(a) <= most
    ensures RequestOf(a) == PageRequest(SizeOf(a) + 1, k * SizeOf(a), k + 1, SizeOf(a))
    ensures k <= k * SizeOf(a)
  {
  }

  lemma ShownAt<T>(all: seq<T>, a: Address, k: nat, offset: nat, size: nat)
    requires Readable(all) && 25 <= size <= 200 && offset <= |all| && k <= offset
    requires RequestOf(a) == PageRequest(size + 1, offset, k + 1, size)
    ensures var (shown, view) := Screen(all, a);
      && shown == Window(all, offset, size)
      && (view.hasNext <==> offset + size < |all|)
      && view.nextURL == (if view.hasNext then Some(WithPage(a, k + 2)) else None)
      && view.prevURL == (if 0 < k then Some(WithPage(a, k)) else None)
      && view.to == Least(offset + size, |all|)
      && (view.rows ==> view.from == offset + 1)
  {
  }

  /** Page k + 1 shows its own window of the list, and has a next page exactly when rows remain after it. */
  lemma ScreenShows<T>(all: seq<T>, a: Address, k: nat)
    requires Readable(all) && NumberOf(a) == k + 1 && k * SizeOf(a) <= |all|
    ensures var (shown, view) := Screen(all, a); var offset, size := k * SizeOf(a), SizeOf(a);
      && shown == Window(all, offset, size)
      && (view.hasNext <==> offset + size < |all|)
      && (view.hasNext <==> view.nextURL.Some?)
      && (view.nextURL.Some? ==> NumberOf(view.nextURL.value) == k + 2 && SizeOf(view.nextURL.value) == size)
      && view.to == Least(offset + size, |all|)
      && (view.rows ==> view.from == offset + 1)
  {
    RequestIs(a, k, |all|);
    ShownAt(all, a, k, k * SizeOf(a), SizeOf(a));
    NumberReadBack(a, k + 2);
  }

  lemma NextOffset(k: nat, size: nat)
    ensures (k + 1) * size == k * size + size
  {
  }

  /** The page before the next page is this page again. */
  lemma PreviousOfNext<T>(all: seq<T>, a: Address, k: nat)
    requires Readable(all) && NumberOf(a) == k + 1 && k * SizeOf(a) + SizeOf(a) < |all|
    ensures var next := Screen(all, a).1.nextURL;
      && next.Some? && Screen(all, next.value).1.prevURL.Some?
      && RequestOf(Screen(all, next.value).1.prevURL.value) == RequestOf(a)
  {
    NextOffset(k, SizeOf(a));
    ScreenShows(all, a, k);
    var next := Screen(all, a).1.nextURL.value;
    RequestIs(next, k + 1, |all|);
    ShownAt(all, next, k + 1, (k + 1) * SizeOf(a), SizeOf(a));
    NumberReadBack(next, k + 1);
  }

  lemma {:induction false} VisitedAt<T>(all: seq<T>, visited: seq<Address>, i: nat)
    requires Readable(all) && Followed(all, visited) && i < |visited| && NumberOf(visited[0]) == 1
    ensures NumberOf(visited[i]) == i + 1 && SizeOf(visited[i]) == SizeOf(visited[0])
    ensures i * SizeOf(visited[0]) <= |all|
  {
    if i != 0 {
      VisitedAt(all, visited, i - 1);
      ScreenShows(all, visited[i - 1], i - 1);
      NextOffset(i - 1, SizeOf(visited[0]));
      assert NextOf(all, visited[i - 1]) == Some(visited[i]);
    }
  }

  lemma {:induction false} ReadWindows<T>(all: seq<T>, visited: seq<Address>)
    requires Readable(all) && Followed(all, visited) && visited != [] && NumberOf(visited[0]) == 1
    ensures Read(all, visited) == Windows(all, SizeOf(visited[0]), |visited|)
    decreases |visited|
  {
    var n := |visited| - 1;
    VisitedAt(all, visited, n);
    ScreenShows(all, visited[n], n);
    if n != 0 {
      ReadWindows(all, visited[..n]);
    }
  }

  /**
    Following the next page from the first shows every row once and in order, whatever the
    offered size and the other parameters: at every point a prefix of the list, and all of it
    exactly when there is no next page left.
   */
  lemma ReadToTheBottom<T>(all: seq<T>, visited: seq<Address>)
    requires Readable(all) && Followed(all, visited) && visited != [] && NumberOf(visited[0]) == 1
    ensures Read(all, visited) <= all
    ensures Read(all, visited) == all <==> NextOf(all, visited[|visited| - 1]).None?
  {
    var n, size := |visited| - 1, SizeOf(visited[0]);
    ReadWindows(all, visited);
    WindowsTile(all, size, |visited|);
    VisitedAt(all, visited, n);
    ScreenShows(all, visited[n], n);
    NextOffset(n, size);
  }

  // ---------- what a request and a pager say ----------

  /** Twenty-five, fifty, a hundred or two hundred rows, as asked, and fifty for anything else asked. */
  lemma SizesOffered(a: Address)
    ensures PageSizes() == [25, 50, 100, 200]
    ensures var asked := Decimal.ParseInt(a.Get("per"));
      SizeOf(a) == if asked == Some(25) then 25 else if asked == Some(100) then 100
                   else if asked == Some(200) then 200 else 50
  {
  }

  /** One row more than the page holds is asked for, from where the page begins; a bad number is the first page. */
  lemma RequestExactly(a: Address)
    ensures var page, asked := RequestOf(a), Decimal.ParseInt(a.Get("page"));
      && page.number == (if asked.Some? && 1 <= asked.value then asked.value else 1)
      && page.size == SizeOf(a) && page.limit == page.size + 1
      && (Decimal.InInt64((page.number - 1) * page.size) ==> page.offset == (page.number - 1) * page.size)
  {
    hide SizeOf;
  }

  /** The first page has the bare address, and a page of the usual size does not name it. */
  lemma AddressesExactly(a: Address, number: int, size: nat)
    ensures WithPage(a, number) == Address(a.path,
      if number <= 1 then a.query - {"page"} else a.query["page" := [Decimal.FormatInt(number)]])
    ensures WithSize(a, size) == Address(a.path,
      if size == 50 then a.query - {"page", "per"} else (a.query - {"page"})["per" := [Decimal.FormatInt(size)]])
  {
    assert a.query - {"page"} - {"per"} == a.query - {"page", "per"};
  }

  /** The pager: pages on either side where there are any, the rows covered, and each size with the one in use marked. */
  lemma PagerExactly(found: nat, shown: nat, page: PageRequest, a: Address, k: nat)
    requires k < 4
    ensures var view := ViewOf(found, shown, page, a); var size := PageSizes()[k];
      && view.number == page.number && (view.rows <==> 0 < shown)
      && (view.hasPrev <==> 1 < page.number) && (view.hasNext <==> page.size < found)
      && view.prevURL == (if 1 < page.number then Some(WithPage(a, page.number - 1)) else None)
      && (Decimal.InInt64(page.number + 1) ==>
           view.nextURL == if page.size < found then Some(WithPage(a, page.number + 1)) else None)
      && (shown == 0 ==> view.from == 0)
      && (0 < shown && Decimal.InInt64(page.offset + 1) ==> view.from == page.offset + 1)
      && (Decimal.InInt64(page.offset + shown) ==> view.to == page.offset + shown)
      && |view.sizes| == 4 && view.sizes[k] == SizeOption(size, WithSize(a, size), page.size == size)
  {
    hide WithPage, WithSize;
    OptionsAre(a, page.size, 4, k);
  }

  lemma {:induction false} OptionsAre(a: Address, size: nat, n: nat, k: nat)
    requires k < n <= |PageSizes()|
    ensures |SizeOptions(a, size, n)| == n
    ensures SizeOptions(a, size, n)[k] == SizeOption(PageSizes()[k], WithSize(a, PageSizes()[k]), size == PageSizes()[k])
  {
    hide WithSize;
    OptionsCount(a, size, n - 1);
    if k < n - 1 {
      OptionsAre(a, size, n - 1, k);
    }
  }

  lemma {:induction false} OptionsCount(a: Address, size: nat, n: nat)
    requires n <= |PageSizes()|
    ensures |SizeOptions(a, size, n)| == n
  {
    if n != 0 {
      OptionsCount(a, size, n - 1);
    }
  }

  /** Arithmetic wraps around at 64 bits. */
  lemma WrapsExactly(n: int)
    ensures Decimal.InInt64(Wrapped(n)) && (Wrapped(n) - n) % 0x1_0000_0000_0000_0000 == 0
    ensures Decimal.InInt64(n) ==> Wrapped(n) == n
  {
  }
}
