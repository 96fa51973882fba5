/** The taxonomy service of docs/archive/encore-modules/taxonomy/taxonomy.ts:
    tag counting, the pre-order extraction of every tag with its category
    path, the keyword search with its category filter and limit, the lookup
    of a tag by id, and the lookup of a category by dotted path. The taxonomy
    JSON file is a parameter: every operation takes the list of top-level
    categories. */
module Taxonomy {
  import opened Common

  /** A tag as stored; `category` is overwritten with the path on extraction. */
  datatype Tag = Tag(
    id: string,
    name: string,
    category: string,
    description: Option<string>,
    relatedTags: Option<seq<string>>)

  /** A category node. A missing `subcategories` or `tags` field is the empty
      list: the source treats both alike. */
  datatype Category = Category(
    id: string,
    name: string,
    description: Option<string>,
    subcategories: seq<Category>,
    tags: seq<Tag>)

  // ---------------------------------------------------------------------------
  // Counting
  // ---------------------------------------------------------------------------

  /** `countTags`: the node's own tags plus those of its subcategories. */
  function CountTags(c: Category): nat
    decreases c
  {
    |c.tags| + CountForest(c.subcategories)
  }

  function CountForest(cs: seq<Category>): nat
    decreases cs
  {
    if cs == [] then 0 else CountTags(cs[0]) + CountForest(cs[1..])
  }

  // ---------------------------------------------------------------------------
  // Extraction
  // ---------------------------------------------------------------------------

  /** The tags of one node, copied with `category` set to the node's path. */
  function Relabel(tags: seq<Tag>, path: string): (r: seq<Tag>)
    ensures |r| == |tags|
    ensures forall i | 0 <= i < |r| :: r[i] == tags[i].(category := path)
  {
    seq(|tags|, i requires 0 <= i < |tags| => tags[i].(category := path))
  }

  /** `extractTags(cat, path)`: the node's tags, then each subcategory in
      order under `path + "." + sub.id`. */
  function Extract(c: Category, path: string): seq<Tag>
    decreases c
  {
    Relabel(c.tags, path) + ExtractSubs(c.subcategories, path)
  }

  function ExtractSubs(subs: seq<Category>, path: string): seq<Tag>
    decreases subs
  {
    if subs == [] then [] else Extract(subs[0], path + "." + subs[0].id) + ExtractSubs(subs[1..], path)
  }

  /** Every tag of the taxonomy, each top-level category under its own id. */
  function AllTags(cats: seq<Category>): seq<Tag> {
    if cats == [] then [] else Extract(cats[0], cats[0].id) + AllTags(cats[1..])
  }

  /** `getTaxonomy`'s total: the extraction emits exactly the counted tags. */
  function TotalTags(cats: seq<Category>): (n: nat)
    ensures n == |AllTags(cats)|
  {
    AllTagsCount(cats);
    CountForest(cats)
  }

  lemma {:induction false} ExtractCount(c: Category, path: string)
    ensures |Extract(c, path)| == CountTags(c)
    decreases c
  {
    ExtractSubsCount(c.subcategories, path);
  }

  lemma {:induction false} ExtractSubsCount(subs: seq<Category>, path: string)
    ensures |ExtractSubs(subs, path)| == CountForest(subs)
    decreases subs
  {
    if subs != [] {
      ExtractCount(subs[0], path + "." + subs[0].id);
      ExtractSubsCount(subs[1..], path);
    }
  }

  lemma {:induction false} AllTagsCount(cats: seq<Category>)
    ensures |AllTags(cats)| == CountForest(cats)
  {
    if cats != [] {
      ExtractCount(cats[0], cats[0].id);
      AllTagsCount(cats[1..]);
    }
  }

  /** The category of an extracted tag is the path it was extracted under,
      or that path extended by "." and further segments. */
  predicate Below(category: string, path: string) {
    category == path || StartsWith(category, path + ".")
  }

  lemma BelowExtended(category: string, path: string, id: string)
    requires Below(category, path + "." + id)
    ensures Below(category, path)
  {
    var p := path + ".";
    assert (path + "." + id)[..|p|] == p;
  }

  lemma {:induction false} ExtractPaths(c: Category, path: string)
    ensures forall t | t in Extract(c, path) :: Below(t.category, path)
    decreases c
  {
    ExtractSubsPaths(c.subcategories, path);
    forall t | t in Extract(c, path) ensures Below(t.category, path) {
      if t !in ExtractSubs(c.subcategories, path) {
        var i :| 0 <= i < |Relabel(c.tags, path)| && Relabel(c.tags, path)[i] == t;
      }
    }
  }

  lemma {:induction false} ExtractSubsPaths(subs: seq<Category>, path: string)
    ensures forall t | t in ExtractSubs(subs, path) :: Below(t.category, path)
    decreases subs
  {
    if subs != [] {
      var sub := path + "." + subs[0].id;
      ExtractPaths(subs[0], sub);
      ExtractSubsPaths(subs[1..], path);
      forall t | t in Extract(subs[0], sub) ensures Below(t.category, path) {
        BelowExtended(t.category, path, subs[0].id);
      }
    }
  }

  // ---------------------------------------------------------------------------
  // Search
  // ---------------------------------------------------------------------------

  /** The query (already lower-cased) occurs in the lower-cased name, id or
      description. */
  predicate MatchesQuery(t: Tag, q: string) {
    || Contains(Lower(t.name), q)
    || Contains(Lower(t.id), q)
    || (t.description.Some? && Contains(Lower(t.description.value), q))
  }

  function FilterQuery(tags: seq<Tag>, q: string): (r: seq<Tag>)
    ensures |r| <= |tags|
    ensures forall t :: t in r <==> t in tags && MatchesQuery(t, q)
  {
    if tags == [] then []
    else (if MatchesQuery(tags[0], q) then [tags[0]] else []) + FilterQuery(tags[1..], q)
  }

  function FilterCategory(tags: seq<Tag>, prefix: string): (r: seq<Tag>)
    ensures |r| <= |tags|
    ensures forall t :: t in r <==> t in tags && StartsWith(t.category, prefix)
  {
    if tags == [] then []
    else (if StartsWith(tags[0].category, prefix) then [tags[0]] else []) + FilterCategory(tags[1..], prefix)
  }

  /** `s.slice(0, end)`: a negative end counts from the back. */
  function SliceTo<T>(s: seq<T>, end: int): (r: seq<T>)
    ensures |r| == if end >= 0 then (if end < |s| then end else |s|)
                   else (if |s| + end > 0 then |s| + end else 0)
    ensures r == s[..|r|]
  {
    if end >= 0 then Prefix(s, end)
    else if |s| + end > 0 then s[..|s| + end]
    else []
  }

  /** Every tag the search considers: the query match, then the category
      prefix when a non-empty category is given. */
  function Selected(cats: seq<Category>, query: string, category: Option<string>): (r: seq<Tag>)
    ensures forall t :: t in r <==>
      && t in AllTags(cats) && MatchesQuery(t, Lower(query))
      && (Truthy(category) ==> StartsWith(t.category, category.value))
  {
    var matches := FilterQuery(AllTags(cats), Lower(query));
    if Truthy(category) then FilterCategory(matches, category.value) else matches
  }

  datatype SearchResponse = SearchResponse(tags: seq<Tag>, totalFound: nat)

  /** `searchTags`: the first `limit` selected tags (50 when no limit is
      given), and the number of all selected tags. */
  function Search(cats: seq<Category>, query: string, limit: Option<int>, category: Option<string>): (r: SearchResponse)
    ensures r.totalFound == |Selected(cats, query, category)|
    ensures |r.tags| <= r.totalFound && r.tags == Selected(cats, query, category)[..|r.tags|]
    ensures limit.None? ==> |r.tags| == MinNat(50, r.totalFound)
    ensures limit.Some? && limit.value >= 0 ==> |r.tags| == MinNat(limit.value, r.totalFound)
    ensures limit.Some? && limit.value < 0 ==> |r.tags| == (if r.totalFound + limit.value > 0 then r.totalFound + limit.value else 0)
    ensures forall t | t in r.tags :: t in AllTags(cats) && MatchesQuery(t, Lower(query))
  {
    var results := Selected(cats, query, category);
    SearchResponse(SliceTo(results, if limit.None? then 50 else limit.value), |results|)
  }

  lemma {:induction false} EmptyQueryKeepsAll(tags: seq<Tag>)
    ensures FilterQuery(tags, "") == tags
  {
    if tags != [] {
      assert OccursAt(Lower(tags[0].name), "", 0);
      EmptyQueryKeepsAll(tags[1..]);
    }
  }

  /** An empty query without a category finds every tag: the search's
      `totalFound` is `getTaxonomy`'s `totalTags`. */
  lemma EmptyQueryFindsAll(cats: seq<Category>)
    ensures Search(cats, "", None, None).totalFound == TotalTags(cats)
  {
    assert Lower("") == "";
    EmptyQueryKeepsAll(AllTags(cats));
  }

  // ---------------------------------------------------------------------------
  // getTag
  // ---------------------------------------------------------------------------

  /** The position of the first tag with id `id`. */
  function FirstWithId(tags: seq<Tag>, id: string): (r: Option<nat>)
    ensures r.Some? ==> r.value < |tags| && tags[r.value].id == id
    ensures r.Some? ==> forall j | 0 <= j < r.value :: tags[j].id != id
    ensures r.None? <==> forall j | 0 <= j < |tags| :: tags[j].id != id
  {
    if tags == [] then None
    else if tags[0].id == id then Some(0)
    else match FirstWithId(tags[1..], id)
      case None => None
      case Some(k) => Some(k + 1)
  }

  /** `getTag`: the first tag in pre-order with that id, or none. */
  function GetTag(cats: seq<Category>, id: string): (r: Option<Tag>)
    ensures r.None? <==> forall t | t in AllTags(cats) :: t.id != id
    ensures r.Some? ==> r.value.id == id
    ensures r.Some? ==>
      exists i | 0 <= i < |AllTags(cats)| ::
        AllTags(cats)[i] == r.value && forall j | 0 <= j < i :: AllTags(cats)[j].id != id
  {
    var all := AllTags(cats);
    match FirstWithId(all, id)
    case None => None
    case Some(i) => Some(all[i])
  }

  // ---------------------------------------------------------------------------
  // getCategory
  // ---------------------------------------------------------------------------

  /** `cats.find(c => c.id === first)`. */
  function FindById(cats: seq<Category>, id: string): (r: Option<Category>)
    ensures r.Some? ==> r.value in cats && r.value.id == id
    ensures r.None? <==> forall c | c in cats :: c.id != id
  {
    if cats == [] then None
    else if cats[0].id == id then Some(cats[0])
    else FindById(cats[1..], id)
  }

  /** `findCategory`: follow the path one segment at a time; none for an
      empty path or a missing segment. */
  function FindCategory(cats: seq<Category>, path: seq<string>): (r: Option<Category>)
    ensures path == [] ==> r.None?
    ensures r.Some? ==> r.value.id == path[|path| - 1]
    ensures |path| == 1 ==> r == FindById(cats, path[0])
    decreases path
  {
    if path == [] then None
    else match FindById(cats, path[0])
      case None => None
      case Some(c) => if |path| == 1 then Some(c) else FindCategory(c.subcategories, path[1..])
  }

  /** Following `p + q` is following `p` and then `q` below the node reached. */
  lemma {:induction false} FindCategoryCompose(cats: seq<Category>, p: seq<string>, q: seq<string>)
    requires p != [] && q != []
    ensures FindCategory(cats, p + q) ==
      match FindCategory(cats, p)
      case None => None
      case Some(c) => FindCategory(c.subcategories, q)
    decreases p
  {
    assert (p + q)[0] == p[0];
    match FindById(cats, p[0])
    case None =>
    case Some(c) =>
      if |p| == 1 {
        assert (p + q)[1..] == q;
      } else {
        assert (p + q)[1..] == p[1..] + q;
        FindCategoryCompose(c.subcategories, p[1..], q);
      }
  }

  /** `getCategory`: the node the dotted id leads to, with every tag of its
      subtree extracted under the id; no node and no tags otherwise. */
  function GetCategory(cats: seq<Category>, categoryId: string): (r: (Option<Category>, seq<Tag>))
    ensures r.0 == FindCategory(cats, Split(categoryId, '.'))
    ensures r.0.None? ==> r.1 == []
    ensures r.0.Some? ==> |r.1| == CountTags(r.0.value)
    ensures forall t | t in r.1 :: Below(t.category, categoryId)
  {
    match FindCategory(cats, Split(categoryId, '.'))
    case None => (None, [])
    case Some(c) =>
      ExtractCount(c, categoryId);
      ExtractPaths(c, categoryId);
      (Some(c), Extract(c, categoryId))
  }

  lemma {:induction false} TopLevelInAll(cats: seq<Category>, i: nat)
    requires i < |cats|
    ensures forall t | t in Extract(cats[i], cats[i].id) :: t in AllTags(cats)
  {
    if i > 0 {
      TopLevelInAll(cats[1..], i - 1);
    }
  }

  /** For a top-level category whose id has no dot, the tags `getCategory`
      lists are tags the search extracts too. */
  lemma TopLevelTagsAreSearchable(cats: seq<Category>, i: nat)
    requires i < |cats| && '.' !in cats[i].id
    requires forall j | 0 <= j < i :: cats[j].id != cats[i].id
    ensures GetCategory(cats, cats[i].id).0 == Some(cats[i])
    ensures forall t | t in GetCategory(cats, cats[i].id).1 :: t in AllTags(cats)
  {
    SplitWithoutSeparator(cats[i].id, '.');
    FirstById(cats, i);
    TopLevelInAll(cats, i);
  }

  lemma {:induction false} FirstById(cats: seq<Category>, i: nat)
    requires i < |cats|
    requires forall j | 0 <= j < i :: cats[j].id != cats[i].id
    ensures FindById(cats, cats[i].id) == Some(cats[i])
  {
    if i > 0 {
      FirstById(cats[1..], i - 1);
    }
  }
}
