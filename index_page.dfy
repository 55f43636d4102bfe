/**
 * The home page's post list (src/pages/index.tsx): the posts shown so far and
 * the URL of the next page of the listing, the projection of a listing result
 * onto a post summary, the initial props built at static-generation time, and
 * the "load more posts" handler that appends one fetched page at a time.
 */
module IndexPage {
  import opened Wrappers

  // ---------------------------------------------------------------------------
  // Listing documents and post summaries
  // ---------------------------------------------------------------------------

  /** The `data` of a post document as the content service returns it. */
  datatype DocumentData = DocumentData(
    title: string,
    subtitle: string,
    author: string,
    otherFields: map<string, string>)

  /** One entry of a listing's `results`. */
  datatype Document = Document(
    id: string,
    uid: Option<string>,
    docType: string,
    tags: seq<string>,
    firstPublicationDate: Option<string>,
    lastPublicationDate: Option<string>,
    data: DocumentData)

  /** A listing page: `{ next_page, results }`; `next_page` is null on the last page. */
  datatype ListingPage = ListingPage(nextPage: Option<string>, results: seq<Document>)

  /** The post summary the page keeps: interface `Post`. */
  datatype PostData = PostData(title: string, subtitle: string, author: string)
  datatype Post = Post(uid: Option<string>, firstPublicationDate: Option<string>, data: PostData)

  /** The props of the page: interface `PostPagination`. */
  datatype PostPagination = PostPagination(nextPage: Option<string>, results: seq<Post>)

  /** The projection applied to every listing result, at build time and on every later load. */
  function ProjectPost(doc: Document): Post
  {
    Post(doc.uid, doc.firstPublicationDate,
         PostData(doc.data.title, doc.data.subtitle, doc.data.author))
  }

  /** Two documents agree on the five fields a post summary keeps. */
  predicate AgreeOnSummaryFields(a: Document, b: Document)
  {
    a.uid == b.uid && a.firstPublicationDate == b.firstPublicationDate &&
    a.data.title == b.data.title && a.data.subtitle == b.data.subtitle &&
    a.data.author == b.data.author
  }

  /** The projection keeps exactly the five summary fields: no more, no less. */
  lemma ProjectionKeepsExactlySummaryFields(a: Document, b: Document)
    ensures ProjectPost(a) == ProjectPost(b) <==> AgreeOnSummaryFields(a, b)
  {
  }

  /** `results.map(...)`: one summary per result, in the order received. */
  function ProjectPosts(docs: seq<Document>): (posts: seq<Post>)
    ensures |posts| == |docs|
    ensures forall i :: 0 <= i < |docs| ==> posts[i] == ProjectPost(docs[i])
  {
    if docs == [] then []
    else [ProjectPost(docs[0])] + ProjectPosts(docs[1..])
  }

  /** Projecting two pages one after the other is projecting their concatenation. */
  lemma {:induction false} ProjectPostsAppend(a: seq<Document>, b: seq<Document>)
    ensures ProjectPosts(a + b) == ProjectPosts(a) + ProjectPosts(b)
    decreases |a|
  {
    if a != [] {
      ProjectPostsAppend(a[1..], b);
      assert (a + b)[0] == a[0];
      assert (a + b)[1..] == a[1..] + b;
      var head := [ProjectPost(a[0])];
      assert ProjectPosts(a + b) == head + (ProjectPosts(a[1..]) + ProjectPosts(b));
      assert ProjectPosts(a) == head + ProjectPosts(a[1..]);
      AppendIsAssociative(head, ProjectPosts(a[1..]), ProjectPosts(b));
    } else {
      assert a + b == b;
    }
  }

  /** `getStaticProps`: the first listing page, projected, with its `next_page`. */
  function StaticProps(response: ListingPage): (props: PostPagination)
    ensures props.nextPage == response.nextPage
    ensures |props.results| == |response.results|
    ensures forall i :: 0 <= i < |props.results| ==> props.results[i] == ProjectPost(response.results[i])
  {
    PostPagination(response.nextPage, ProjectPosts(response.results))
  }

  // ---------------------------------------------------------------------------
  // Loading more posts
  // ---------------------------------------------------------------------------

  /**
   * What `fetch(url)` followed by `response.json()` yields: a listing page, or
   * a rejection (a network failure, a body that is not JSON, or results the
   * projection cannot read).
   */
  datatype Fetch = Delivered(page: ListingPage) | Rejected

  /** The page's two state cells. */
  datatype HomeState = HomeState(posts: seq<Post>, nextPage: Option<string>)

  /**
   * One run of `handleLoadMorePosts` against `respond`, the answer the
   * listing URL gives. With no next page it returns at once. A rejected
   * fetch throws before either state cell is set, so nothing changes.
   * Otherwise the page's results are projected and appended, without sorting
   * or removing duplicates, and its `next_page` replaces the token.
   */
  function LoadMore(s: HomeState, respond: string -> Fetch): (t: HomeState)
    ensures s.nextPage == None ==> t == s
    ensures s.posts <= t.posts
    ensures s.nextPage.Some? && respond(s.nextPage.value).Rejected? ==> t == s
    ensures s.nextPage.Some? && respond(s.nextPage.value).Delivered? ==>
      var page := respond(s.nextPage.value).page;
      t.nextPage == page.nextPage &&
      |t.posts| == |s.posts| + |page.results| &&
      forall i :: 0 <= i < |page.results| ==> t.posts[|s.posts| + i] == ProjectPost(page.results[i])
  {
    match s.nextPage
    case None => s
    case Some(url) =>
      match respond(url)
      case Rejected => s
      case Delivered(page) => HomeState(s.posts + ProjectPosts(page.results), page.nextPage)
  }

  /** `{nextPage && <button>}`: the button is rendered only for a non-empty token. */
  function ShowsLoadMoreButton(nextPage: Option<string>): bool
  {
    match nextPage
    case None => false
    case Some(url) => url != ""
  }

  /**
   * A visible button always leads to a fetch of the current token whose page
   * is applied, but the two guards differ: an empty token hides the button,
   * yet the handler (which only tests for null) still fetches it.
   */
  lemma ButtonAndHandlerGuards(s: HomeState, respond: string -> Fetch)
    ensures ShowsLoadMoreButton(s.nextPage) ==> s.nextPage.Some?
    ensures ShowsLoadMoreButton(s.nextPage) && respond(s.nextPage.value).Delivered? ==>
      LoadMore(s, respond) ==
        HomeState(s.posts + ProjectPosts(respond(s.nextPage.value).page.results),
                  respond(s.nextPage.value).page.nextPage)
    ensures !ShowsLoadMoreButton(s.nextPage) && s.nextPage != None ==> s.nextPage == Some("")
    ensures s.nextPage == Some("") ==> !ShowsLoadMoreButton(s.nextPage)
    ensures s.nextPage == Some("") && respond("").Delivered? ==>
      LoadMore(s, respond).nextPage == respond("").page.nextPage &&
      LoadMore(s, respond).posts == s.posts + ProjectPosts(respond("").page.results)
  {
  }

  /** Helper: sequence concatenation regroups freely. */
  lemma AppendIsAssociative(a: seq<Post>, b: seq<Post>, c: seq<Post>)
    ensures (a + b) + c == a + (b + c)
  {
  }

  /** Two successful loads append both pages, in order, and leave the second page's token. */
  lemma TwoLoadsAppendBothPages(s: HomeState, respond: string -> Fetch, first: ListingPage, second: ListingPage)
    requires s.nextPage.Some? && respond(s.nextPage.value) == Delivered(first)
    requires first.nextPage.Some? && respond(first.nextPage.value) == Delivered(second)
    ensures LoadMore(LoadMore(s, respond), respond) ==
      HomeState(s.posts + ProjectPosts(first.results + second.results), second.nextPage)
  {
    var middle := LoadMore(s, respond);
    assert middle == HomeState(s.posts + ProjectPosts(first.results), first.nextPage);
    var last := LoadMore(middle, respond);
    assert last == HomeState(middle.posts + ProjectPosts(second.results), second.nextPage);
    ProjectPostsAppend(first.results, second.results);
    AppendIsAssociative(s.posts, ProjectPosts(first.results), ProjectPosts(second.results));
  }

  /**
   * Nothing is deduplicated: a listing URL that answers with itself as
   * `next_page` puts the same summaries into the list a second time.
   */
  lemma RepeatedPageIsAppendedTwice(s: HomeState, respond: string -> Fetch, url: string, docs: seq<Document>)
    requires s.nextPage == Some(url) && respond(url) == Delivered(ListingPage(Some(url), docs))
    ensures LoadMore(LoadMore(s, respond), respond) ==
      HomeState(s.posts + ProjectPosts(docs) + ProjectPosts(docs), Some(url))
  {
    var page := ListingPage(Some(url), docs);
    TwoLoadsAppendBothPages(s, respond, page, page);
    ProjectPostsAppend(docs, docs);
    AppendIsAssociative(s.posts, ProjectPosts(docs), ProjectPosts(docs));
  }

  /** Loading an empty list with the first page's URL gives the build-time props: one projection. */
  lemma FirstLoadMatchesStaticProps(url: string, respond: string -> Fetch, page: ListingPage)
    requires respond(url) == Delivered(page)
    ensures var t := LoadMore(HomeState([], Some(url)), respond);
      t.posts == StaticProps(page).results && t.nextPage == StaticProps(page).nextPage
  {
    assert [] + ProjectPosts(page.results) == ProjectPosts(page.results);
  }

  /** `n` clicks on the button, one after the other. */
  function LoadTimes(s: HomeState, respond: string -> Fetch, n: nat): HomeState
    decreases n
  {
    if n == 0 then s else LoadMore(LoadTimes(s, respond, n - 1), respond)
  }

  /** However many loads run, the list only grows at its end, and an exhausted list stays as it is. */
  lemma {:induction false} LoadsAreAppendOnly(s: HomeState, respond: string -> Fetch, n: nat)
    ensures s.posts <= LoadTimes(s, respond, n).posts
    ensures s.nextPage == None ==> LoadTimes(s, respond, n) == s
    decreases n
  {
    if n > 0 {
      LoadsAreAppendOnly(s, respond, n - 1);
      var before := LoadTimes(s, respond, n - 1);
      assert before.posts <= LoadMore(before, respond).posts;
    }
  }

  // ---------------------------------------------------------------------------
  // The component
  // ---------------------------------------------------------------------------

  /** The `Home` component's state cells `posts` and `nextPage`. */
  class Home {
    var posts: seq<Post>
    var nextPage: Option<string>

    function State(): HomeState
      reads this
    {
      HomeState(posts, nextPage)
    }

    /** `useState(postsPagination.results)` and `useState(postsPagination.next_page)`. */
    constructor (postsPagination: PostPagination)
      ensures posts == postsPagination.results
      ensures nextPage == postsPagination.nextPage
    {
      posts := postsPagination.results;
      nextPage := postsPagination.nextPage;
    }

    /**
     * `handleLoadMorePosts`. `requested` is the URL fetched, if any: the
     * current token, and only when it is not null. `ok` is false when the
     * fetch was rejected, the case where the source's promise rejects.
     */
    method HandleLoadMorePosts(respond: string -> Fetch) returns (requested: Option<string>, ok: bool)
      modifies this
      ensures requested == old(nextPage)
      ensures ok <==> requested == None || respond(requested.value).Delivered?
      ensures State() == LoadMore(old(State()), respond)
    {
      if nextPage == None {
        return None, true;
      }
      var url := nextPage.value;
      requested := Some(url);
      var response := respond(url);
      if response.Rejected? {
        return requested, false;
      }
      var newPosts := ProjectPosts(response.page.results);
      nextPage := response.page.nextPage;
      posts := posts + newPosts;
      ok := true;
    }
  }
}
