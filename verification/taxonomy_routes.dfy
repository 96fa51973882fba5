/** The taxonomy routes of src/routes/taxonomy.routes.ts: the tag count of
    `GET /api/taxonomy` and the `GET /api/taxonomy/search` handler with its
    query check, its limit and its recursive search that stops once the limit
    is reached. The taxonomy JSON file is a parameter, read as a tree whose
    `subcategories` and `tags` objects are lists of keyed children in the
    order `for...in` visits them. */
module TaxonomyRoutes {
  import opened Common

  /** A searchable item; every field may be absent. `labelText` is the
      JSON field `label`, a reserved word here. */
  datatype Item = Item(
    id: Option<string>,
    labelText: Option<string>,
    description: Option<string>,
    intensity: Option<int>)

  /** A node. `items` is `None` when the field is missing or not an array. */
  datatype Node = Node(items: Option<seq<Item>>, subcategories: seq<Entry>, tags: seq<Entry>)

  /** One key of a `subcategories` or `tags` object and its value. */
  datatype Entry = Entry(key: string, node: Node)

  /** A search result: the item's fields and the path of its node. */
  datatype Hit = Hit(
    id: Option<string>,
    labelText: Option<string>,
    description: Option<string>,
    intensity: Option<int>,
    path: string)

  function ItemsOf(n: Node): seq<Item> {
    if n.items.Some? then n.items.value else []
  }

  // ---------------------------------------------------------------------------
  // Counting
  // ---------------------------------------------------------------------------

  /** `countTags`: the node's items plus the counts below both child objects. */
  function CountTags(n: Node): nat
    decreases n
  {
    |ItemsOf(n)| + CountEntries(n.subcategories) + CountEntries(n.tags)
  }

  function CountEntries(es: seq<Entry>): nat
    decreases es
  {
    if es == [] then 0 else CountTags(es[0].node) + CountEntries(es[1..])
  }

  // ---------------------------------------------------------------------------
  // The unlimited walk
  // ---------------------------------------------------------------------------

  function OrEmpty(o: Option<string>): string {
    if o.Some? then o.value else ""
  }

  /** The query (already lower-cased) occurs in the lower-cased label or
      description, a missing one read as the empty string. */
  predicate Matches(item: Item, q: string) {
    Contains(Lower(OrEmpty(item.labelText)), q) || Contains(Lower(OrEmpty(item.description)), q)
  }

  function HitOf(item: Item, path: string): (h: Hit)
    ensures h.path == path && h.labelText == item.labelText && h.description == item.description
  {
    Hit(item.id, item.labelText, item.description, item.intensity, path)
  }

  /** The hits among a node's own items, in order. */
  function ItemHits(items: seq<Item>, path: string, q: string): (r: seq<Hit>)
    ensures |r| <= |items|
    ensures forall h | h in r :: h.path == path && (exists i | i in items :: h == HitOf(i, path) && Matches(i, q))
  {
    if items == [] then []
    else (if Matches(items[0], q) then [HitOf(items[0], path)] else []) + ItemHits(items[1..], path, q)
  }

  /** Every hit of the tree in visiting order, with no limit: the node's
      items under `path`, then each child under `path + "/" + key`. */
  function AllHits(n: Node, path: string, q: string): seq<Hit>
    decreases n
  {
    ItemHits(ItemsOf(n), path, q) + EntryHits(n.subcategories, path, q) + EntryHits(n.tags, path, q)
  }

  function EntryHits(es: seq<Entry>, path: string, q: string): seq<Hit>
    decreases es
  {
    if es == [] then [] else AllHits(es[0].node, path + "/" + es[0].key, q) + EntryHits(es[1..], path, q)
  }

  /** A result path is the path it was searched under, or that path
      extended by "/" and further keys. */
  predicate Under(p: string, path: string) {
    p == path || StartsWith(p, path + "/")
  }

  lemma UnderExtended(p: string, path: string, key: string)
    requires Under(p, path + "/" + key)
    ensures Under(p, path)
  {
    var pre := path + "/";
    assert (path + "/" + key)[..|pre|] == pre;
  }

  lemma {:induction false} HitPaths(n: Node, path: string, q: string)
    ensures forall h | h in AllHits(n, path, q) :: Under(h.path, path)
    decreases n
  {
    EntryHitPaths(n.subcategories, path, q);
    EntryHitPaths(n.tags, path, q);
  }

  lemma {:induction false} EntryHitPaths(es: seq<Entry>, path: string, q: string)
    ensures forall h | h in EntryHits(es, path, q) :: Under(h.path, path)
    decreases es
  {
    if es != [] {
      var sub := path + "/" + es[0].key;
      HitPaths(es[0].node, sub, q);
      EntryHitPaths(es[1..], path, q);
      forall h | h in AllHits(es[0].node, sub, q) ensures Under(h.path, path) {
        UnderExtended(h.path, path, es[0].key);
      }
    }
  }

  /** Every hit carries a matching item. */
  lemma {:induction false} HitsMatch(n: Node, path: string, q: string)
    ensures forall h | h in AllHits(n, path, q) ::
      Contains(Lower(OrEmpty(h.labelText)), q) || Contains(Lower(OrEmpty(h.description)), q)
    decreases n
  {
    EntryHitsMatch(n.subcategories, path, q);
    EntryHitsMatch(n.tags, path, q);
  }

  lemma {:induction false} EntryHitsMatch(es: seq<Entry>, path: string, q: string)
    ensures forall h | h in EntryHits(es, path, q) ::
      Contains(Lower(OrEmpty(h.labelText)), q) || Contains(Lower(OrEmpty(h.description)), q)
    decreases es
  {
    if es != [] {
      HitsMatch(es[0].node, path + "/" + es[0].key, q);
      EntryHitsMatch(es[1..], path, q);
    }
  }

  lemma {:induction false} EmptyQueryHitsAllItems(items: seq<Item>, path: string)
    ensures |ItemHits(items, path, "")| == |items|
  {
    if items != [] {
      assert OccursAt(Lower(OrEmpty(items[0].labelText)), "", 0);
      EmptyQueryHitsAllItems(items[1..], path);
    }
  }

  /** The search visits exactly the items `countTags` counts: with a query
      every item matches, the walk yields one hit per counted item. */
  lemma {:induction false} CountIsEmptySearch(n: Node, path: string)
    ensures |AllHits(n, path, "")| == CountTags(n)
    decreases n
  {
    EmptyQueryHitsAllItems(ItemsOf(n), path);
    CountEntriesIsEmptySearch(n.subcategories, path);
    CountEntriesIsEmptySearch(n.tags, path);
  }

  lemma {:induction false} CountEntriesIsEmptySearch(es: seq<Entry>, path: string)
    ensures |EntryHits(es, path, "")| == CountEntries(es)
    decreases es
  {
    if es != [] {
      CountIsEmptySearch(es[0].node, path + "/" + es[0].key);
      CountEntriesIsEmptySearch(es[1..], path);
    }
  }

  // ---------------------------------------------------------------------------
  // The limited search
  // ---------------------------------------------------------------------------

  /** The first `k` elements, none for `k <= 0`. */
  function Take<T>(s: seq<T>, k: int): (r: seq<T>)
    ensures |r| == if k <= 0 then 0 else if k < |s| then k else |s|
    ensures r == s[..|r|]
  {
    if k <= 0 then [] else if k < |s| then s[..k] else s
  }

  lemma TakeCons<T>(x: T, s: seq<T>, k: int)
    requires k > 0
    ensures Take([x] + s, k) == [x] + Take(s, k - 1)
  {
  }

  lemma TakeAppend<T>(a: seq<T>, b: seq<T>, k: int)
    ensures Take(a, k) + Take(b, k - |Take(a, k)|) == Take(a + b, k)
  {
    if k > 0 && k >= |a| {
      assert Take(a + b, k) == a + Take(b, k - |a|);
    }
  }

  /** The item loop: stop once `limit` results are collected. */
  function ScanItems(items: seq<Item>, path: string, q: string, limit: int, acc: seq<Hit>): seq<Hit>
    decreases |items|
  {
    if items == [] || |acc| >= limit then acc
    else ScanItems(items[1..], path, q, limit,
                   if Matches(items[0], q) then acc + [HitOf(items[0], path)] else acc)
  }

  /** `searchInObject(obj, path)`: return at once when the limit is reached,
      otherwise scan the items and visit both child objects. */
  function SearchIn(n: Node, path: string, q: string, limit: int, acc: seq<Hit>): seq<Hit>
    decreases n
  {
    if |acc| >= limit then acc
    else
      var afterItems := ScanItems(ItemsOf(n), path, q, limit, acc);
      var afterSubs := SearchEntries(n.subcategories, path, q, limit, afterItems);
      SearchEntries(n.tags, path, q, limit, afterSubs)
  }

  function SearchEntries(es: seq<Entry>, path: string, q: string, limit: int, acc: seq<Hit>): seq<Hit>
    decreases es
  {
    if es == [] then acc
    else SearchEntries(es[1..], path, q, limit, SearchIn(es[0].node, path + "/" + es[0].key, q, limit, acc))
  }

  lemma {:induction false} ScanItemsTakes(items: seq<Item>, path: string, q: string, limit: int, acc: seq<Hit>)
    ensures ScanItems(items, path, q, limit, acc) == acc + Take(ItemHits(items, path, q), limit - |acc|)
    decreases |items|
  {
    if items != [] && |acc| < limit {
      var rest := ItemHits(items[1..], path, q);
      if Matches(items[0], q) {
        var h := HitOf(items[0], path);
        ScanItemsTakes(items[1..], path, q, limit, acc + [h]);
        assert ItemHits(items, path, q) == [h] + rest;
        TakeCons(h, rest, limit - |acc|);
      } else {
        ScanItemsTakes(items[1..], path, q, limit, acc);
        assert ItemHits(items, path, q) == rest;
      }
    }
  }

  /** Collecting the first hits of `a` and then of `b` collects the first
      hits of `a + b`. */
  lemma Continue<T>(acc: seq<T>, a: seq<T>, b: seq<T>, limit: int)
    ensures var a1 := acc + Take(a, limit - |acc|);
      a1 + Take(b, limit - |a1|) == acc + Take(a + b, limit - |acc|)
  {
    var k := limit - |acc|;
    TakeAppend(a, b, k);
    assert acc + Take(a, k) + Take(b, k - |Take(a, k)|) == acc + (Take(a, k) + Take(b, k - |Take(a, k)|));
  }

  /** The early exits change nothing but the length: the search collects
      exactly the first `limit - |acc|` hits of the unlimited walk. */
  lemma {:induction false} SearchInTakes(n: Node, path: string, q: string, limit: int, acc: seq<Hit>)
    ensures SearchIn(n, path, q, limit, acc) == acc + Take(AllHits(n, path, q), limit - |acc|)
    decreases n
  {
    if |acc| < limit {
      var items := ItemHits(ItemsOf(n), path, q);
      var subs := EntryHits(n.subcategories, path, q);
      var tags := EntryHits(n.tags, path, q);
      ScanItemsTakes(ItemsOf(n), path, q, limit, acc);
      var a1 := acc + Take(items, limit - |acc|);
      SearchEntriesTakes(n.subcategories, path, q, limit, a1);
      Continue(acc, items, subs, limit);
      var a2 := acc + Take(items + subs, limit - |acc|);
      SearchEntriesTakes(n.tags, path, q, limit, a2);
      Continue(acc, items + subs, tags, limit);
    }
  }

  lemma {:induction false} SearchEntriesTakes(es: seq<Entry>, path: string, q: string, limit: int, acc: seq<Hit>)
    ensures SearchEntries(es, path, q, limit, acc) == acc + Take(EntryHits(es, path, q), limit - |acc|)
    decreases es
  {
    if es != [] {
      var sub := path + "/" + es[0].key;
      var first := AllHits(es[0].node, sub, q);
      var rest := EntryHits(es[1..], path, q);
      SearchInTakes(es[0].node, sub, q, limit, acc);
      var a1 := acc + Take(first, limit - |acc|);
      SearchEntriesTakes(es[1..], path, q, limit, a1);
      Continue(acc, first, rest, limit);
    }
  }

  // ---------------------------------------------------------------------------
  // The handler
  // ---------------------------------------------------------------------------

  /** `parseInt(limit) || 50`: a missing or unparsable limit (`None`) and a
      limit of 0 both become 50. */
  function Limit(parsed: Option<int>): (l: int)
    ensures l != 0
    ensures parsed.Some? && parsed.value != 0 ==> l == parsed.value
    ensures parsed.None? || parsed.value == 0 ==> l == 50
  {
    if parsed.None? || parsed.value == 0 then 50 else parsed.value
  }

  datatype SearchReply =
    | Invalid(error: string, message: string)
    | Found(query: string, results: seq<Hit>, count: nat, hasMore: bool)

  /** The `/search` handler. The query is lower-cased; fewer than two
      characters are rejected before any search runs. */
  function HandleSearch(root: Node, q: Option<string>, limit: Option<int>): (r: SearchReply)
    ensures r.Invalid? <==> !Truthy(q) || |q.value| < 2
    ensures r.Found? ==>
      var lim := Limit(limit);
      && r.query == Lower(q.value)
      && r.results == Take(AllHits(root, "", r.query), lim)
      && r.count == |r.results|
      && |r.results| <= (if lim > 0 then lim else 0)
      && (r.hasMore <==> |r.results| == lim)
  {
    var query := Lower(if Truthy(q) then q.value else "");
    if |query| < 2 then Invalid("Invalid query", "Search query must be at least 2 characters")
    else
      var lim := Limit(limit);
      var results := SearchIn(root, "", query, lim, []);
      SearchInTakes(root, "", query, lim, []);
      Found(query, results, |results|, |results| == lim)
  }

  /** Every result contains the query in its label or description, and its
      path lies under the root. */
  lemma ResultsMatch(root: Node, q: Option<string>, limit: Option<int>)
    requires HandleSearch(root, q, limit).Found?
    ensures var r := HandleSearch(root, q, limit);
      forall h | h in r.results ::
        && (Contains(Lower(OrEmpty(h.labelText)), r.query) || Contains(Lower(OrEmpty(h.description)), r.query))
        && Under(h.path, "")
  {
    var r := HandleSearch(root, q, limit);
    HitsMatch(root, "", r.query);
    HitPaths(root, "", r.query);
  }

  /** `hasMore` is set whenever the results fill the limit, also when the
      taxonomy holds exactly `limit` hits and nothing more. */
  lemma HasMoreWithoutMore(root: Node, q: string, l: int)
    requires |q| >= 2 && l > 0
    requires |AllHits(root, "", Lower(q))| == l
    ensures HandleSearch(root, Some(q), Some(l)).hasMore
  {
  }

  /** A negative limit returns nothing: the first check already stops the
      search. */
  lemma NegativeLimitFindsNothing(root: Node, q: string, l: int)
    requires |q| >= 2 && l < 0
    ensures HandleSearch(root, Some(q), Some(l)).results == []
    ensures !HandleSearch(root, Some(q), Some(l)).hasMore
  {
  }
}
