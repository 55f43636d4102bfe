# SpaceTraveling blog: reading time and post-list pagination

A model of the two pieces of logic in a static blog front-end built on a
headless content service.

- **Reading time** (`readTime`, module `ReadTime`). Each content block of a
  post is scored by the number of pieces `split(/\s/g)` yields for its heading
  and for the HTML that the rich-text renderer makes of its body. Only the
  first block's score is used. It becomes `Math.ceil(score / 200 + 3)`
  minutes, rendered as `"<n> min"`. The tokenizer is modelled as a real
  splitter over the exact ECMAScript `\s` character set. Its piece count is
  proved to be the number of whitespace characters plus one, and joining the
  pieces with the separators gives the input back. The ceiling is integer
  arithmetic, proved equal to the real-valued formula. The number rendering is
  proved to read back as the number.
- **Post list and "load more"** (module `IndexPage`). A listing result is
  projected onto a post summary of `uid`, `first_publication_date`, `title`,
  `subtitle` and `author`. The build-time props are the first page, projected,
  with its `next_page`. The `Home` component holds two state cells, `posts` and
  `nextPage`. Its handler does nothing when `nextPage` is null. Otherwise it
  fetches that URL once. It then appends the projected results in the order
  received, with no deduplication, and replaces the token with the page's
  `next_page`. A pure transition `LoadMore` specifies the handler, and the
  lemmas about pagination are stated over it.

An empty content list does not throw: `result[0]` is `undefined`,
`undefined / 200` is NaN and `Math.ceil(NaN + 3)` is NaN, so `readTime`
returns `"NaN min"` (src/utils/readTime.ts:18-20). `ReadTime` models that
case and does not require a non-empty list.

The files:

- `wrappers.dfy`: `Option`, which stands for a JavaScript value that may be `null`.
- `read_time.dfy`: module `ReadTime` (src/utils/readTime.ts).
- `index_page.dfy`: module `IndexPage` (src/pages/index.tsx).

## Model

| member | source | states |
|---|---|---|
| `ReadTime.Split` | src/utils/readTime.ts:12-13 | `split(/\s/g)` yields at least one piece, and no piece contains a `\s` character |
| `ReadTime.SplitJoinRoundTrip` | src/utils/readTime.ts:12-13 | there is one more piece than whitespace characters, and joining the pieces with the removed whitespace rebuilds the string exactly |
| `ReadTime.WordCount` | src/utils/readTime.ts:12 | the `.length` of a split is never below 1 |
| `ReadTime.WordCountIsWhitespacePlusOne` | src/utils/readTime.ts:12-13 | the token count is the number of whitespace characters plus one, so `""` counts as one word |
| `ReadTime.BlockWords` | src/utils/readTime.ts:11-15 | a block's total is the body's tokens plus the heading's tokens: whitespace in both plus two, so at least 2 |
| `ReadTime.WordTotals` | src/utils/readTime.ts:11-16 | the `map` gives one total per block, in block order: the i-th is block i's heading-plus-body count, at least 2 |
| `ReadTime.Minutes` | src/utils/readTime.ts:18-20 | minutes are the least `m` with `200 * (m - 3) >= total`, which is `ceil(total / 200) + 3`, never below 3 |
| `ReadTime.MinutesIsCeiling` | src/utils/readTime.ts:18-20 | the integer formula is exactly `Math.ceil(total / 200 + 3)` over the reals |
| `ReadTime.MinutesMonotone` | src/utils/readTime.ts:18-20 | a larger word total never gives fewer minutes |
| `ReadTime.EstimateMinutes` | src/utils/readTime.ts:18-20 | there is a count exactly when the content is non-empty, and it is at least 4 minutes |
| `ReadTime.Decimal` | src/utils/readTime.ts:20 | `${n}` is a non-empty run of decimal digits with no leading zero |
| `ReadTime.DecimalRoundTrip` | src/utils/readTime.ts:20 | reading the rendered digits back gives the number |
| `ReadTime.ReadTime` | src/utils/readTime.ts:10-21 | the result always ends in `" min"`, and it is `"NaN min"` exactly when there are no blocks |
| `ReadTime.ReadTimeShowsMinutes` | src/utils/readTime.ts:18-20 | for non-empty content, the text before `" min"` is the decimal form of `Math.ceil(w / 200 + 3)` for the first block's total `w`, digits only and with no leading zero, and it is at least 4 |
| `ReadTime.OnlyFirstBlockCounts` | src/utils/readTime.ts:18 | blocks after the first never change the result |
| `ReadTime.ReadTimeMonotone` | src/utils/readTime.ts:11-20 | a first block with more words never gives a shorter estimate, whatever follows it |
| `ReadTime.ShortPostExample` | src/utils/readTime.ts:10-21 | heading "Hello world" with a body rendered as "<p>one two three four</p>" reads as "4 min" |
| `IndexPage.ProjectionKeepsExactlySummaryFields` | src/pages/index.tsx:46-54 | two results project to the same summary if and only if they agree on uid, first publication date, title, subtitle and author |
| `IndexPage.ProjectPosts` | src/pages/index.tsx:114-124 | one summary per result, the i-th being the projection of the i-th result: same order, none dropped or added |
| `IndexPage.ProjectPostsAppend` | src/pages/index.tsx:46-57 | projecting page after page is projecting their concatenation |
| `IndexPage.StaticProps` | src/pages/index.tsx:114-128 | the props carry the first page's `next_page` and its results projected in order |
| `IndexPage.FirstLoadMatchesStaticProps` | src/pages/index.tsx:46-54 | loading a page into an empty list gives the same posts and token as the build-time props: one projection for both |
| `IndexPage.LoadMore` | src/pages/index.tsx:38-58 | a null token or a rejected fetch changes nothing; otherwise the old posts stay a prefix, the length grows by the page size, the new tail is the page's results projected in order, and the token becomes the page's `next_page` |
| `IndexPage.ButtonAndHandlerGuards` | src/pages/index.tsx:94-98 | the button (shown for a truthy token) and the handler's null-only guard at line 39: a shown button means the handler fetches the current token and applies the page; a hidden button with a non-null token happens only for the empty string, and an empty-string token hides the button while the handler, which tests only for null, still fetches and applies it |
| `IndexPage.TwoLoadsAppendBothPages` | src/pages/index.tsx:56-57 | two successful loads append both pages in order and leave the second page's `next_page` |
| `IndexPage.RepeatedPageIsAppendedTwice` | src/pages/index.tsx:46-57 | a page that answers with itself as `next_page` is appended twice: no deduplication |
| `IndexPage.LoadsAreAppendOnly` | src/pages/index.tsx:57 | after any number of loads the original posts are a prefix of the list, and a null token stays a no-op |
| `IndexPage.Home.constructor` | src/pages/index.tsx:35-36 | the initial state is the props' results and `next_page` |
| `IndexPage.Home.HandleLoadMorePosts` | src/pages/index.tsx:38-58 | the handler fetches the current token exactly when it is not null, reports a rejected fetch, and leaves the state `LoadMore` gives |

## Left out

- `fetch(nextPage)` and `response.json()` are network I/O and JSON parsing. The handler takes `respond`, the answer a URL gives: a listing page, or a rejection. A rejection stands for a network failure, an unparseable body, or results whose entries lack `data` (the `map` throws). In each of these the source throws before either state cell is set.
- The content-service query in `getStaticProps` (src/pages/index.tsx:105-112) is a foreign call. `StaticProps` takes its response as a parameter.
- `RichText.asHtml` is the rich-text renderer of a foreign library. `readTime` takes it as the parameter `asHtml`, and its output is not modelled.
- `Math.ceil` and `/` are evaluated over exact reals, and IEEE-754 rounding is not modelled. For a non-negative integer total the results agree unless the total is large enough for double rounding to cross an integer.
- Date formatting with the pt-BR locale, JSX, `Head`, `Link`, icons and styles are presentation only.
- `setPosts([...posts, ...newPosts])` reads `posts` from the render's closure. Two clicks before the first fetch resolves both fetch the same URL, and the second update overwrites the first. The model runs handlers one after another, so this interleaving is not captured.
- The post page (src/pages/post/[slug].tsx) only calls `readTime`; its data fetching and rendering are not part of this model.
- `uid?: string` and the nullable dates are modelled as `Option<string>`; the content service's other document fields are kept only to show that the projection drops them.
