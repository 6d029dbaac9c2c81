/**
 * The RSS feed of src/server/plugins/rss-feed/index.ts: one item per route of
 * the route table that is not excluded, each route's `app` settings laid over
 * the site metadata, items newest first, in an RSS 2.0 channel.
 *
 * Dates are millisecond timestamps (`Num`); any other value is an invalid
 * date. Rendering dates as RFC 822 text and the XML serialisation are foreign.
 */
module RssFeed {
  import opened Common
  import opened JsString
  import opened JsValue
  import VH = ViewHelpers

  /** A route of the route table: its path and its `app` settings. */
  datatype RouteInfo = RouteInfo(path: string, app: Object)

  /** A feed item; `pubDate` and `dateModified` are `None` for an invalid date. */
  datatype Item = Item(
    title: Value, link: string, description: Value, author: Value, tags: Value,
    pubDate: Option<int>, dateModified: Option<int>, image: Value)

  datatype Channel = Channel(version: string, title: Value, description: Value, link: string, items: seq<Item>)

  /** `new Date(v)` for the values modelled: a timestamp, else an invalid date. */
  function DateOf(v: Value): Option<int> {
    if v.Num? then Some(v.n) else None
  }

  /** The item of one route, or `None` when its settings say `excludeFromFeed`. */
  function ItemFor(site: VH.Url, metadata: Object, route: RouteInfo): (r: Option<Item>)
    ensures r.None? <==> Truthy(Get(ApplyToDefaults(metadata, route.app), "excludeFromFeed"))
  {
    var m := ApplyToDefaults(metadata, route.app);
    if Truthy(Get(m, "excludeFromFeed")) then None
    else
      var imagePath := Get(m, "image");
      var image :=
        if Truthy(imagePath) && imagePath.Str? && !StartsWith(imagePath.s, "http")
        then Str(VH.UrlText(VH.WithPathname(site, imagePath.s)))
        else imagePath;
      Some(Item(Get(m, "title"), VH.UrlText(VH.WithPathname(site, route.path)), Get(m, "description"),
                Get(m, "author"), Get(m, "keywords"), DateOf(Get(m, "publishedAt")),
                DateOf(Get(m, "updatedAt")), image))
  }

  /** Route settings override the site metadata unless they are `null` or `undefined`. */
  lemma RouteSettingsOverlayMetadata(site: VH.Url, metadata: Object, route: RouteInfo)
    requires ItemFor(site, metadata, route).Some?
    ensures var item := ItemFor(site, metadata, route).value;
      && ("title" in route.app && !route.app["title"].Undefined? && !route.app["title"].Null? ==> item.title == route.app["title"])
      && ("title" !in route.app ==> item.title == Get(metadata, "title"))
  {
  }

  /** The link is the site URL with the route path as its pathname; a local image is made absolute the same way. */
  lemma LinkAndImage(site: VH.Url, metadata: Object, route: RouteInfo)
    requires ItemFor(site, metadata, route).Some?
    ensures var item := ItemFor(site, metadata, route).value;
      var imagePath := Get(ApplyToDefaults(metadata, route.app), "image");
      && item.link == VH.UrlText(VH.WithPathname(site, route.path))
      && (imagePath.Str? && imagePath.s != "" && !StartsWith(imagePath.s, "http") ==>
            item.image == Str(VH.UrlText(VH.WithPathname(site, imagePath.s))))
      && (imagePath.Str? && StartsWith(imagePath.s, "http") ==> item.image == imagePath)
      && (!Truthy(imagePath) ==> item.image == imagePath)
  {
  }

  /** `items.filter(Boolean)` over the mapped route table. */
  function Items(site: VH.Url, metadata: Object, routes: seq<RouteInfo>): (r: seq<Item>)
    ensures |r| <= |routes|
    decreases |routes|
  {
    if routes == [] then []
    else
      var item := ItemFor(site, metadata, routes[0]);
      (if item.Some? then [item.value] else []) + Items(site, metadata, routes[1..])
  }

  /** An excluded route contributes nothing, wherever it stands. */
  lemma {:induction false} ExcludedRouteAddsNoItem(site: VH.Url, metadata: Object, a: seq<RouteInfo>, route: RouteInfo, b: seq<RouteInfo>)
    requires Truthy(Get(ApplyToDefaults(metadata, route.app), "excludeFromFeed"))
    ensures Items(site, metadata, a + [route] + b) == Items(site, metadata, a + b)
    decreases |a|
  {
    var x, y := a + [route] + b, a + b;
    if a == [] {
      assert x == [route] + b && y == b;
      ExcludedFirst(site, metadata, route, b);
    } else {
      ExcludedRouteAddsNoItem(site, metadata, a[1..], route, b);
      assert x == [a[0]] + (a[1..] + [route] + b);
      assert y == [a[0]] + (a[1..] + b);
      SameHeadSameItems(site, metadata, a[0], a[1..] + [route] + b, a[1..] + b);
    }
  }

  lemma ExcludedFirst(site: VH.Url, metadata: Object, route: RouteInfo, b: seq<RouteInfo>)
    requires Truthy(Get(ApplyToDefaults(metadata, route.app), "excludeFromFeed"))
    ensures Items(site, metadata, [route] + b) == Items(site, metadata, b)
  {
    ItemsCons(site, metadata, route, b);
  }

  lemma SameHeadSameItems(site: VH.Url, metadata: Object, route: RouteInfo, x: seq<RouteInfo>, y: seq<RouteInfo>)
    requires Items(site, metadata, x) == Items(site, metadata, y)
    ensures Items(site, metadata, [route] + x) == Items(site, metadata, [route] + y)
  {
    ItemsCons(site, metadata, route, x);
    ItemsCons(site, metadata, route, y);
  }

  lemma ItemsCons(site: VH.Url, metadata: Object, route: RouteInfo, rest: seq<RouteInfo>)
    ensures var item := ItemFor(site, metadata, route);
      Items(site, metadata, [route] + rest) == (if item.Some? then [item.value] else []) + Items(site, metadata, rest)
  {
    assert ([route] + rest)[0] == route && ([route] + rest)[1..] == rest;
  }

  // ---------------------------------------------------------------- ordering

  /** The sort key: `date_modified` is RFC 822 text, so parsing it back keeps whole seconds only. */
  function SortKey(item: Item): Option<int> {
    if item.dateModified.Some? then Some(item.dateModified.value / 1000) else None
  }

  /**
   * The comparator as written, `getTime(b) - getTime(a)`: an invalid date
   * gives NaN, which `Array.prototype.sort` reads as "equal".
   */
  function CompareAsWritten(a: Item, b: Item): int {
    var ka := SortKey(a);
    var kb := SortKey(b);
    if ka.Some? && kb.Some? then kb.value - ka.value else 0
  }

  /**
   * With one undated item, the comparator calls it equal to two dated items
   * that it does not call equal to each other: it is not a consistent
   * comparator, so the order of the sorted items is implementation-defined.
   */
  lemma CompareAsWrittenInconsistent()
    ensures var newer := Item(Undefined, "", Undefined, Undefined, Undefined, None, Some(2000), Undefined);
      var undated := Item(Undefined, "", Undefined, Undefined, Undefined, None, None, Undefined);
      var older := Item(Undefined, "", Undefined, Undefined, Undefined, None, Some(1000), Undefined);
      && CompareAsWritten(newer, undated) == 0
      && CompareAsWritten(undated, older) == 0
      && CompareAsWritten(newer, older) != 0
  {
  }

  /** Key `x` is at least as new as key `y`; an invalid date is older than every date. */
  predicate NotOlder(x: Option<int>, y: Option<int>) {
    y.None? || (x.Some? && x.value >= y.value)
  }

  /** Newest first. */
  predicate SortedNewestFirst(s: seq<Item>) {
    forall i, j :: 0 <= i < j < |s| ==> NotOlder(SortKey(s[i]), SortKey(s[j]))
  }

  /** Put `x` before the first item that it is not older than. */
  function Insert(x: Item, t: seq<Item>): (r: seq<Item>)
    ensures |r| == |t| + 1
    decreases |t|
  {
    if t == [] then [x]
    else if NotOlder(SortKey(x), SortKey(t[0])) then [x] + t
    else [t[0]] + Insert(x, t[1..])
  }

  /** A stable sort, newest first, with invalid dates last. */
  function SortNewestFirst(s: seq<Item>): (r: seq<Item>)
    ensures |r| == |s|
    decreases |s|
  {
    if s == [] then [] else Insert(s[0], SortNewestFirst(s[1..]))
  }

  lemma {:induction false} InsertSorted(x: Item, t: seq<Item>)
    requires SortedNewestFirst(t)
    ensures SortedNewestFirst(Insert(x, t))
    ensures forall k :: 0 <= k < |Insert(x, t)| ==> Insert(x, t)[k] == x || Insert(x, t)[k] in t
    decreases |t|
  {
    if t != [] && !NotOlder(SortKey(x), SortKey(t[0])) {
      InsertSorted(x, t[1..]);
      var r := Insert(x, t);
      forall i, j | 0 <= i < j < |r| ensures NotOlder(SortKey(r[i]), SortKey(r[j])) {
        if i == 0 {
          var y := r[j];
          assert y == x || y in t[1..];
          if y in t[1..] {
            var m :| 0 <= m < |t[1..]| && t[1..][m] == y;
            assert t[m + 1] == y;
          }
        } else {
          assert r[i] == Insert(x, t[1..])[i - 1] && r[j] == Insert(x, t[1..])[j - 1];
        }
      }
    }
  }

  lemma {:induction false} InsertPermutes(x: Item, t: seq<Item>)
    ensures multiset(Insert(x, t)) == multiset(t) + multiset{x}
    decreases |t|
  {
    if t != [] && !NotOlder(SortKey(x), SortKey(t[0])) {
      InsertPermutes(x, t[1..]);
      assert t == [t[0]] + t[1..];
    }
  }

  /** The items whose key is `k`, in order. */
  function WithKey(s: seq<Item>, k: Option<int>): seq<Item>
    decreases |s|
  {
    if s == [] then [] else (if SortKey(s[0]) == k then [s[0]] else []) + WithKey(s[1..], k)
  }

  lemma {:induction false} InsertStable(x: Item, t: seq<Item>, k: Option<int>)
    ensures WithKey(Insert(x, t), k) == (if SortKey(x) == k then [x] else []) + WithKey(t, k)
    decreases |t|
  {
    if t == [] {
      assert [x][1..] == [];
    } else if NotOlder(SortKey(x), SortKey(t[0])) {
      assert ([x] + t)[1..] == t;
    } else {
      InsertStable(x, t[1..], k);
      assert ([t[0]] + Insert(x, t[1..]))[1..] == Insert(x, t[1..]);
    }
  }

  /** The sorted items are newest first, a permutation of the input, and items with equal keys keep their order. */
  lemma {:induction false} SortNewestFirstSpec(s: seq<Item>, k: Option<int>)
    ensures SortedNewestFirst(SortNewestFirst(s))
    ensures multiset(SortNewestFirst(s)) == multiset(s)
    ensures WithKey(SortNewestFirst(s), k) == WithKey(s, k)
    decreases |s|
  {
    if s != [] {
      SortNewestFirstSpec(s[1..], k);
      InsertSorted(s[0], SortNewestFirst(s[1..]));
      InsertPermutes(s[0], SortNewestFirst(s[1..]));
      InsertStable(s[0], SortNewestFirst(s[1..]), k);
      assert s == [s[0]] + s[1..];
    }
  }

  // ---------------------------------------------------------------- the feed

  /** `rssFeed`: an RSS 2.0 channel titled and described by the site metadata, linking to the site. */
  function Feed(url: string, site: VH.Url, metadata: Object, routes: seq<RouteInfo>): (r: Channel)
    ensures r.version == "2.0" && r.link == url
    ensures r.title == Get(metadata, "title") && r.description == Get(metadata, "description")
    ensures SortedNewestFirst(r.items)
    ensures multiset(r.items) == multiset(Items(site, metadata, routes))
  {
    var items := Items(site, metadata, routes);
    SortNewestFirstSpec(items, None);
    Channel("2.0", Get(metadata, "title"), Get(metadata, "description"), url, SortNewestFirst(items))
  }

  /** The route registered once the server has started. */
  datatype FeedRoute = FeedRoute(verb: string, path: string, contentType: string, body: Channel)

  /** `GET /rss.xml`, serving the feed built from the route table at server start, as `application/rss+xml`. */
  function RssRoute(url: string, site: VH.Url, metadata: Object, routes: seq<RouteInfo>): (r: FeedRoute)
    ensures r.verb == "GET" && r.path == "/rss.xml" && r.contentType == "application/rss+xml"
    ensures r.body.items == SortNewestFirst(Items(site, metadata, routes))
  {
    FeedRoute("GET", "/rss.xml", "application/rss+xml", Feed(url, site, metadata, routes))
  }
}
