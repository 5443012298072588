/**
 * The on-device songs screen of app/local/index.jsx: paging through the media
 * library and normalising each asset into a song entry.
 */
module LocalSongs {
  import opened Wrappers
  import opened Js
  import opened Media

  /** A media-library audio asset. */
  datatype Asset = Asset(id: string, filename: Option<string>, uri: Option<string>, duration: Option<int>)

  /** `normalizeSong(item)`. */
  function NormalizeSong(item: Asset): (s: Song)
    ensures s.id == Some(item.id) && s.videoId == Some(item.id)
    ensures s.title == s.filename
    ensures s.title == Some(if Truthy(item.filename) then item.filename.value else "Unknown Song")
    ensures s.author == Some("Unknown Artist") && s.artist == Some("Unknown Artist")
    ensures s.uri == item.uri
    ensures s.duration == Some(if item.duration.Some? && item.duration.value != 0 then item.duration.value else 0)
    ensures s.thumbnail == NoThumbnail && s.artwork == None
  {
    var name := OrDefault(item.filename, "Unknown Song");
    Song(Some(item.id), Some(item.id), Some(name), Some("Unknown Artist"), Some("Unknown Artist"),
      Some(name), item.uri, None, NoThumbnail, None, Some(item.duration.GetOr(0)))
  }

  /** The paging cursor: the initial numeric `0`, or an `endCursor` string. */
  datatype Cursor = Zero | After(token: string)

  datatype Screen = Screen(songs: seq<Asset>, hasMore: bool, token: Cursor)

  /** One page from `getAssetsAsync`. */
  datatype Page = Page(assets: seq<Asset>, endCursor: string, hasNextPage: bool)

  /** `loadMore`; `page` is the media library's answer, `None` when it threw. */
  function LoadMore(s: Screen, page: Option<Page>): (r: Screen)
    ensures !s.hasMore || page.None? ==> r == s
    ensures s.hasMore && page.Some? ==>
      && r.songs == s.songs + page.value.assets
      && r.hasMore == page.value.hasNextPage
      && r.token == (if page.value.hasNextPage then After(page.value.endCursor) else s.token)
    ensures s.songs <= r.songs
  {
    if !s.hasMore then s
    else match page
      case None => s
      case Some(p) =>
        Screen(s.songs + p.assets, p.hasNextPage, if p.hasNextPage then After(p.endCursor) else s.token)
  }

  /** `onEndReached`: asks for more only once a cursor has been stored. */
  function OnEndReached(s: Screen, page: Option<Page>): (r: Screen)
    ensures s.token == Zero ==> r == s
    ensures s.token != Zero ==> r == LoadMore(s, page)
  {
    if s.token != Zero then LoadMore(s, page) else s
  }

  /** Once a page with a next page has been loaded, reaching the end of the list loads the next one. */
  lemma OnEndReachedAfterPage(s: Screen, p: Page, next: Option<Page>)
    requires s.hasMore && p.hasNextPage
    ensures var r := LoadMore(s, Some(p)); OnEndReached(r, next) == LoadMore(r, next)
  {
  }

  /** All the assets of a run of pages, in order. */
  function Flatten(pages: seq<Page>): seq<Asset> {
    if |pages| == 0 then [] else pages[0].assets + Flatten(pages[1..])
  }

  /** Loading a run of pages in turn. */
  function LoadAll(s: Screen, pages: seq<Page>): Screen
    decreases |pages|
  {
    if |pages| == 0 then s else LoadAll(LoadMore(s, Some(pages[0])), pages[1..])
  }

  /**
   * While every page but the last says there is more, loading the pages one by
   * one appends all their assets in order.
   */
  lemma {:induction false} LoadAllAppends(s: Screen, pages: seq<Page>)
    requires s.hasMore
    requires forall k :: 0 <= k < |pages| - 1 ==> pages[k].hasNextPage
    ensures LoadAll(s, pages).songs == s.songs + Flatten(pages)
    decreases |pages|
  {
    if |pages| > 0 {
      var s1 := LoadMore(s, Some(pages[0]));
      if |pages| > 1 {
        assert pages[0].hasNextPage;
        assert forall k :: 0 <= k < |pages[1..]| - 1 ==> pages[1..][k].hasNextPage by {
          forall k | 0 <= k < |pages[1..]| - 1 ensures pages[1..][k].hasNextPage {
            assert pages[1..][k] == pages[k + 1];
          }
        }
        LoadAllAppends(s1, pages[1..]);
      } else {
        assert pages[1..] == [];
      }
      assert s.songs + Flatten(pages) == s.songs + pages[0].assets + Flatten(pages[1..]);
    }
  }

  /** Once a page says there is no more, further loads change nothing. */
  lemma LoadMoreStops(s: Screen, p: Page, next: Option<Page>)
    requires s.hasMore && !p.hasNextPage
    ensures var r := LoadMore(s, Some(p)); LoadMore(r, next) == r
  {
  }
}
