/** The listing normaliser `_extract_post_data`, in its two copies: the one of
    scraper.py (records with `votes_count`, `makers`, `product_url`) and the
    one of backend/scraper.py (records ready for storage). A raw GraphQL node
    is a record of optional fields: `None` is a key that is absent, so that
    "absent" and "present but empty" stay apart as `.get(k, default)` keeps them. */
module Listing {
  import opened Wrappers

  datatype TopicNode = TopicNode(name: Option<string>)
  datatype TopicEdge = TopicEdge(node: Option<TopicNode>)
  datatype TopicConnection = TopicConnection(edges: Option<seq<TopicEdge>>)
  datatype MakerNode = MakerNode(name: Option<string>, username: Option<string>)
  /** `makers` is normally a list; anything else fails `isinstance(makers_data, list)`. */
  datatype MakersField = MakerList(items: seq<MakerNode>) | NotAList
  datatype Thumbnail = Thumbnail(url: Option<string>)

  datatype PostNode = PostNode(
    id: Option<string>, name: Option<string>, tagline: Option<string>,
    description: Option<string>, url: Option<string>, slug: Option<string>,
    votesCount: Option<int>, commentsCount: Option<int>, website: Option<string>,
    createdAt: Option<string>, thumbnail: Option<Thumbnail>,
    topics: Option<TopicConnection>, makers: Option<MakersField>)
  {
    /** `not node`: the dictionary has no key at all. */
    predicate IsEmpty()
    {
      id.None? && name.None? && tagline.None? && description.None? && url.None? &&
      slug.None? && votesCount.None? && commentsCount.None? && website.None? &&
      createdAt.None? && thumbnail.None? && topics.None? && makers.None?
    }
  }

  /** A maker as scraper.py keeps it. */
  datatype Maker = Maker(name: string, username: string, profileUrl: string)

  /** A post as scraper.py's `_extract_post_data` returns it. */
  datatype Post = Post(
    id: Option<string>, name: string, tagline: string, description: string,
    url: string, votesCount: int, commentsCount: int, website: string,
    productUrl: string, createdAt: string, thumbnail: string,
    topics: seq<string>, makers: seq<Maker>)

  /** A product as backend/scraper.py's `_extract_post_data` returns it, and as
      scraper.py's `get_top_products` reshapes it for storage. */
  datatype ProductRecord = ProductRecord(
    id: Option<string>, name: string, tagline: string, description: string,
    url: string, websiteUrl: string, thumbnailUrl: string, launchDate: string,
    upvotes: int, makerIds: seq<string>, topics: seq<string>)

  const UnnamedProduct: string := "Unnamed Product"
  const ProfilePrefix: string := "https://producthunt.com/@"
  const ProductPrefix: string := "https://producthunt.com/products/"

  /** `node.get("topics", {}).get("edges", [])`. */
  function TopicEdgesOf(node: PostNode): seq<TopicEdge>
  {
    match node.topics
    case None => []
    case Some(c) => c.edges.GetOr([])
  }

  /** `node.get("makers", [])`, and nothing when that is not a list. */
  function MakerNodesOf(node: PostNode): seq<MakerNode>
  {
    match node.makers
    case None => []
    case Some(NotAList) => []
    case Some(MakerList(items)) => items
  }

  /** `node.get("thumbnail", {}).get("url", "")`. */
  function ThumbnailOf(node: PostNode): string
  {
    match node.thumbnail
    case None => ""
    case Some(t) => t.url.GetOr("")
  }

  /** `topic_node and "name" in topic_node` (scraper.py). */
  predicate HasNameKey(e: TopicEdge)
  {
    e.node.Some? && e.node.value.name.Some?
  }

  /** `edge.get("node", {}).get("name")` is truthy (backend/scraper.py). */
  predicate HasTruthyName(e: TopicEdge)
  {
    HasNameKey(e) && e.node.value.name.value != ""
  }

  /** scraper.py's topic loop: the names of the topic nodes that have a name key. */
  function KeyedTopicNames(edges: seq<TopicEdge>): (names: seq<string>)
    ensures |names| <= |edges|
  {
    if edges == [] then []
    else
      (if HasNameKey(edges[0]) then [edges[0].node.value.name.value] else []) +
      KeyedTopicNames(edges[1..])
  }

  /** backend/scraper.py's topic comprehension: only the names that are truthy. */
  function TruthyTopicNames(edges: seq<TopicEdge>): (names: seq<string>)
    ensures |names| <= |edges|
    ensures forall i | 0 <= i < |names| :: names[i] != ""
  {
    if edges == [] then []
    else
      (if HasTruthyName(edges[0]) then [edges[0].node.value.name.value] else []) +
      TruthyTopicNames(edges[1..])
  }

  /** One kept maker, with its profile link when the username is truthy. */
  function MakerOf(m: MakerNode): Maker
    requires m.name.Some?
  {
    var username := m.username.GetOr("");
    Maker(m.name.value, username,
          if m.username.Some? && m.username.value != "" then ProfilePrefix + m.username.value else "")
  }

  /** The maker loop: `maker and "name" in maker` (the same in both copies). */
  function KeptMakers(items: seq<MakerNode>): (makers: seq<Maker>)
    ensures |makers| <= |items|
  {
    if items == [] then []
    else (if items[0].name.Some? then [MakerOf(items[0])] else []) + KeptMakers(items[1..])
  }

  /** `[maker.get("username", "") for maker in makers]`. */
  function Usernames(makers: seq<Maker>): (ids: seq<string>)
    ensures |ids| == |makers|
    ensures forall i | 0 <= i < |makers| :: ids[i] == makers[i].username
  {
    if makers == [] then [] else [makers[0].username] + Usernames(makers[1..])
  }

  /** scraper.py's `_extract_post_data`; `resolve` is `_get_final_url`. */
  function ExtractPost(resolve: string -> string, node: PostNode): (r: Option<Post>)
    ensures r.None? <==> node.IsEmpty()
  {
    if node.IsEmpty() then None
    else
      Some(Post(
        id := node.id,
        name := node.name.GetOr(UnnamedProduct),
        tagline := node.tagline.GetOr(""),
        description := node.description.GetOr(""),
        url := resolve(node.url.GetOr("")),
        votesCount := node.votesCount.GetOr(0),
        commentsCount := node.commentsCount.GetOr(0),
        website := resolve(node.website.GetOr("")),
        productUrl := if node.slug.Some? && node.slug.value != "" then ProductPrefix + node.slug.value else "",
        createdAt := node.createdAt.GetOr(""),
        thumbnail := ThumbnailOf(node),
        topics := KeyedTopicNames(TopicEdgesOf(node)),
        makers := KeptMakers(MakerNodesOf(node))))
  }

  /** backend/scraper.py's `_extract_post_data`. */
  function ExtractRecord(resolve: string -> string, node: PostNode): (r: Option<ProductRecord>)
    ensures r.None? <==> node.IsEmpty()
  {
    if node.IsEmpty() then None
    else
      Some(ProductRecord(
        id := node.id,
        name := node.name.GetOr(UnnamedProduct),
        tagline := node.tagline.GetOr(""),
        description := node.description.GetOr(""),
        url := resolve(node.url.GetOr("")),
        websiteUrl := resolve(node.website.GetOr("")),
        thumbnailUrl := ThumbnailOf(node),
        launchDate := node.createdAt.GetOr(""),
        upvotes := node.votesCount.GetOr(0),
        makerIds := Usernames(KeptMakers(MakerNodesOf(node))),
        topics := TruthyTopicNames(TopicEdgesOf(node))))
  }

  // ---------------------------------------------------------------------
  // What the normaliser promises
  // ---------------------------------------------------------------------

  /** `s` with the empty strings left out. */
  function WithoutEmpty(s: seq<string>): (r: seq<string>)
    ensures forall i | 0 <= i < |r| :: r[i] != "" && r[i] in s
  {
    if s == [] then []
    else (if s[0] == "" then [] else [s[0]]) + WithoutEmpty(s[1..])
  }

  /** The topic filters keep source order: the names from two runs of edges
      are the names from the first run followed by those from the second. */
  lemma {:induction false} KeyedTopicNamesAppend(a: seq<TopicEdge>, b: seq<TopicEdge>)
    ensures KeyedTopicNames(a + b) == KeyedTopicNames(a) + KeyedTopicNames(b)
  {
    if a != [] {
      KeyedTopicNamesAppend(a[1..], b);
      assert (a + b)[1..] == a[1..] + b;
    } else {
      assert a + b == b;
    }
  }

  lemma {:induction false} KeptMakersAppend(a: seq<MakerNode>, b: seq<MakerNode>)
    ensures KeptMakers(a + b) == KeptMakers(a) + KeptMakers(b)
  {
    if a != [] {
      var head := if a[0].name.Some? then [MakerOf(a[0])] else [];
      KeptMakersAppend(a[1..], b);
      assert (a + b)[0] == a[0] && (a + b)[1..] == a[1..] + b;
      assert KeptMakers(a + b) == head + KeptMakers(a[1..] + b);
      assert head + (KeptMakers(a[1..]) + KeptMakers(b)) == (head + KeptMakers(a[1..])) + KeptMakers(b);
    } else {
      assert a + b == b;
    }
  }

  /** Every topic kept by scraper.py comes from a topic node with a name key,
      and every such node contributes its name. */
  lemma {:induction false} KeyedTopicNamesSound(edges: seq<TopicEdge>)
    ensures forall t | t in KeyedTopicNames(edges) ::
      exists i | 0 <= i < |edges| :: HasNameKey(edges[i]) && edges[i].node.value.name.value == t
    ensures forall i | 0 <= i < |edges| && HasNameKey(edges[i]) ::
      edges[i].node.value.name.value in KeyedTopicNames(edges)
  {
    if edges != [] {
      KeyedTopicNamesSound(edges[1..]);
      var rest := KeyedTopicNames(edges[1..]);
      forall t | t in KeyedTopicNames(edges)
        ensures exists i | 0 <= i < |edges| :: HasNameKey(edges[i]) && edges[i].node.value.name.value == t
      {
        if t !in rest {
          assert HasNameKey(edges[0]) && edges[0].node.value.name.value == t;
        } else {
          var j :| 0 <= j < |edges[1..]| && HasNameKey(edges[1..][j]) && edges[1..][j].node.value.name.value == t;
          assert edges[j + 1] == edges[1..][j];
        }
      }
      forall i | 0 <= i < |edges| && HasNameKey(edges[i])
        ensures edges[i].node.value.name.value in KeyedTopicNames(edges)
      {
        if i > 0 {
          assert edges[1..][i - 1] == edges[i];
        }
      }
    }
  }

  /** The backend copy keeps exactly the topics the scraper.py copy keeps,
      less the empty names. */
  lemma {:induction false} TruthyTopicsAreNonEmptyKeyedTopics(edges: seq<TopicEdge>)
    ensures TruthyTopicNames(edges) == WithoutEmpty(KeyedTopicNames(edges))
  {
    if edges != [] {
      TruthyTopicsAreNonEmptyKeyedTopics(edges[1..]);
      var head := if HasNameKey(edges[0]) then [edges[0].node.value.name.value] else [];
      WithoutEmptyAppend(head, KeyedTopicNames(edges[1..]));
    }
  }

  lemma {:induction false} WithoutEmptyAppend(a: seq<string>, b: seq<string>)
    ensures WithoutEmpty(a + b) == WithoutEmpty(a) + WithoutEmpty(b)
  {
    if a != [] {
      WithoutEmptyAppend(a[1..], b);
      assert (a + b)[1..] == a[1..] + b;
    } else {
      assert a + b == b;
    }
  }

  /** A kept maker links to `https://producthunt.com/@<username>` exactly when
      its username is non-empty, and has an empty link otherwise. The kept
      makers are exactly the entries with a `name` key: each comes from such an
      entry, and each such entry is kept. */
  lemma MakerProfileLinks(items: seq<MakerNode>)
    ensures forall m | m in KeptMakers(items) ::
      m.profileUrl == (if m.username != "" then ProfilePrefix + m.username else "")
    ensures forall m | m in KeptMakers(items) :: exists i | 0 <= i < |items| ::
      items[i].name == Some(m.name) && items[i].username.GetOr("") == m.username
    ensures forall i | 0 <= i < |items| && items[i].name.Some? :: MakerOf(items[i]) in KeptMakers(items)
  {
    KeptMakersSound(items);
    KeptMakersComplete(items);
  }

  lemma {:induction false} KeptMakersSound(items: seq<MakerNode>)
    ensures forall m | m in KeptMakers(items) ::
      m.profileUrl == (if m.username != "" then ProfilePrefix + m.username else "")
    ensures forall m | m in KeptMakers(items) :: exists i | 0 <= i < |items| ::
      items[i].name == Some(m.name) && items[i].username.GetOr("") == m.username
  {
    if items != [] {
      KeptMakersSound(items[1..]);
      forall m | m in KeptMakers(items)
        ensures exists i | 0 <= i < |items| :: items[i].name == Some(m.name) && items[i].username.GetOr("") == m.username
      {
        if m in KeptMakers(items[1..]) {
          var j :| 0 <= j < |items[1..]| && items[1..][j].name == Some(m.name) && items[1..][j].username.GetOr("") == m.username;
          assert items[j + 1] == items[1..][j];
        } else {
          assert items[0].name == Some(m.name) && items[0].username.GetOr("") == m.username;
        }
      }
    }
  }

  lemma {:induction false} KeptMakersComplete(items: seq<MakerNode>)
    ensures forall i | 0 <= i < |items| && items[i].name.Some? :: MakerOf(items[i]) in KeptMakers(items)
  {
    if items != [] {
      KeptMakersComplete(items[1..]);
      var head := if items[0].name.Some? then [MakerOf(items[0])] else [];
      assert KeptMakers(items) == head + KeptMakers(items[1..]);
      forall i | 0 <= i < |items| && items[i].name.Some?
        ensures MakerOf(items[i]) in KeptMakers(items)
      {
        if i > 0 {
          assert items[1..][i - 1] == items[i];
          assert MakerOf(items[i]) in KeptMakers(items[1..]);
        }
      }
    }
  }

  /** What scraper.py's copy makes of a non-empty node: the id as given, the
      placeholder name only when the key is absent, "" or 0 for the other
      absent fields, the two URLs through the resolver, the slug link only for
      a truthy slug, and the thumbnail's `url` when there is one. */
  lemma ExtractPostFields(resolve: string -> string, node: PostNode)
    requires !node.IsEmpty()
    ensures var p := ExtractPost(resolve, node).value;
      p.id == node.id &&
      (node.name.None? ==> p.name == UnnamedProduct) &&
      (node.name.Some? ==> p.name == node.name.value) &&
      p.url == resolve(node.url.GetOr("")) && p.website == resolve(node.website.GetOr("")) &&
      p.votesCount == node.votesCount.GetOr(0) && p.tagline == node.tagline.GetOr("") &&
      (node.description.None? ==> p.description == "") &&
      (node.description.Some? ==> p.description == node.description.value) &&
      (node.commentsCount.None? ==> p.commentsCount == 0) &&
      (node.commentsCount.Some? ==> p.commentsCount == node.commentsCount.value) &&
      (node.createdAt.None? ==> p.createdAt == "") &&
      (node.createdAt.Some? ==> p.createdAt == node.createdAt.value) &&
      (node.thumbnail.None? || node.thumbnail.value.url.None? ==> p.thumbnail == "") &&
      (node.thumbnail.Some? && node.thumbnail.value.url.Some? ==> p.thumbnail == node.thumbnail.value.url.value) &&
      (p.productUrl != "" <==> node.slug.Some? && node.slug.value != "") &&
      (p.productUrl != "" ==> p.productUrl == ProductPrefix + node.slug.value)
  {
  }

  /** The two copies agree on everything but the topics, where the backend
      drops empty names, and the makers, which the backend keeps as usernames. */
  lemma BackendRecordMatchesPost(resolve: string -> string, node: PostNode)
    requires !node.IsEmpty()
    ensures var p, r := ExtractPost(resolve, node).value, ExtractRecord(resolve, node).value;
      r.id == p.id && r.name == p.name && r.tagline == p.tagline &&
      r.description == p.description && r.url == p.url && r.websiteUrl == p.website &&
      r.thumbnailUrl == p.thumbnail && r.launchDate == p.createdAt &&
      r.upvotes == p.votesCount && r.makerIds == Usernames(p.makers) &&
      r.topics == WithoutEmpty(p.topics)
  {
    TruthyTopicsAreNonEmptyKeyedTopics(TopicEdgesOf(node));
  }

  /** A maker list with one entry that has a handle and one without a name
      keeps only the first, linked to its handle. */
  lemma OneMakerKeptExample()
    ensures KeptMakers([MakerNode(Some("Ada"), Some("ada")), MakerNode(None, Some("bob"))]) ==
      [Maker("Ada", "ada", "https://producthunt.com/@ada")]
  {
    var items := [MakerNode(Some("Ada"), Some("ada")), MakerNode(None, Some("bob"))];
    assert items[1..][1..] == [];
    assert KeptMakers(items[1..]) == [];
    assert ProfilePrefix + "ada" == "https://producthunt.com/@ada";
  }
}
