/**
 * The page readers of the harvester: `page_get` (how many listing pages a cuisine has),
 * `get_data` (the dishes of one listing page) and `detail_get` (a dish's text and images).
 * A fetched page is given as what the XPath queries extract from it; nothing is parsed here.
 */
module Scraper {
  import opened Wrappers
  import opened PyStr
  import PosixPath
  import Seqs

  /** One `<li>` of a listing page: the text nodes and the `href`s of its title link. */
  datatype ListItem = ListItem(titles: seq<string>, hrefs: seq<string>)

  /** The main content `<div>` of a detail page: the text nodes of each `<p>` in it, and the
      `src` of each `<img>` in it, in document order. */
  datatype ContentDiv = ContentDiv(paragraphs: seq<seq<string>>, imgSrcs: seq<string>)

  /** What the harvester's queries find in one page: the texts of the first `<em>` of the
      pager, the listing items, and the first main content `<div>` if there is one. */
  datatype Document = Document(pager: seq<string>, items: seq<ListItem>, content: Option<ContentDiv>)

  /** The outside world as the harvester sees it. `fetch(url)` is the page at `url`, or `None`
      when the request, the status check or the parse raised. `stored(src, path)` says whether
      downloading image `src` and writing its bytes to `path` succeeded. */
  datatype Web = Web(fetch: string -> Option<Document>, stored: (string, string) -> bool)

  /** One listing entry, the single-key dict `{name: link}` that `get_data` appends. */
  datatype Dish = Dish(name: string, link: string)
  {
    /** The dict itself: iterating over its items yields exactly the pair (name, link). */
    function AsDict(): (m: map<string, string>)
      ensures |m| == 1 && name in m && m[name] == link
      ensures forall k :: k in m ==> k == name
    {
      map[name := link]
    }
  }

  /** The site prefixed to every relative dish link. */
  const Host := "https://www.food365.com.cn"

  // ---------------------------------------------------------------- page_get

  /** `page_get`: the first pager text read as an int; 1 when the page could not be fetched,
      when it has no pager, and when the text is not an integer (the ValueError is caught). */
  function PageCount(page: Option<Document>): (n: int)
    ensures n != 1 ==> page.Some? && page.value.pager != [] && ParseInt(page.value.pager[0]) == Some(n)
    ensures page.Some? && page.value.pager != [] && ParseInt(page.value.pager[0]).Some? ==>
              n == ParseInt(page.value.pager[0]).value
  {
    match page
    case None => 1
    case Some(doc) =>
      if doc.pager == [] then 1
      else match ParseInt(doc.pager[0])
        case None => 1
        case Some(k) => k
  }

  /** A pager whose first text is a decimal number, possibly padded with the whitespace `int()`
      skips, gives that number; one of more than 4300 digits is refused and gives 1. */
  lemma PageCountOfNumber(doc: Document, total: nat, before: string, after: string)
    requires forall k :: 0 <= k < |before| ==> IntSpace(before[k])
    requires forall k :: 0 <= k < |after| ==> IntSpace(after[k])
    requires doc.pager != [] && doc.pager[0] == before + NatToString(total) + after
    ensures PageCount(Some(doc)) == if |NatToString(total)| <= MaxStrDigits then total else 1
  {
    ParsePaddedNat(total, before, after);
  }

  /** A pager text "\x1c5" gives 1: `int()` raises ValueError on it, although `strip()` would
      leave "5". */
  lemma PageCountSeparatorPadding(doc: Document)
    requires doc.pager != [] && doc.pager[0] == ['\U{001C}', '5']
    ensures PageCount(Some(doc)) == 1
  {
    ParseIntRefusesSeparator();
  }

  // ---------------------------------------------------------------- get_data

  /** The entry one listing item yields: kept only when its title link has both a text and an
      href; the name is the first text stripped, the link the host followed by the first href. */
  function Entry(item: ListItem): (r: Option<Dish>)
    ensures r.Some? <==> item.titles != [] && item.hrefs != []
    ensures r.Some? ==> Trimmed(r.value.name) && r.value.link == Host + item.hrefs[0]
  {
    if item.titles != [] && item.hrefs != [] then
      StripResultTrimmed(item.titles[0]);
      Some(Dish(Strip(item.titles[0]), Host + item.hrefs[0]))
    else None
  }

  /** What `get_data` returns for a page: nothing when the page could not be fetched. */
  function Listing(page: Option<Document>): (r: seq<Dish>)
    ensures page.None? ==> r == []
    ensures page.Some? ==> |r| <= |page.value.items|
  {
    match page
    case None => []
    case Some(doc) => Seqs.FilterMap(doc.items, Entry)
  }

  /** `get_data`: the loop over the listing items, appending one entry per complete item. */
  method GetData(web: Web, url: string) returns (dishes: seq<Dish>)
    ensures dishes == Listing(web.fetch(url))
  {
    var page := web.fetch(url);
    if page.None? {
      return [];
    }
    var items := page.value.items;
    dishes := [];
    var i := 0;
    while i < |items|
      invariant 0 <= i <= |items|
      invariant dishes == Seqs.FilterMap(items[..i], Entry)
    {
      var item := items[i];
      assert Seqs.FilterMap(items[..i + 1], Entry) ==
             if Entry(item).Some? then dishes + [Entry(item).value] else dishes by {
        assert items[..i + 1][..i] == items[..i];
      }
      if item.titles != [] && item.hrefs != [] {
        dishes := dishes + [Dish(Strip(item.titles[0]), Host + item.hrefs[0])];
      }
      i := i + 1;
    }
    assert items[..i] == items;
  }

  /** The listing keeps exactly the items with a title text and an href, in document order,
      naming each by its stripped first text and linking it under the host. */
  lemma ListingSelects(doc: Document) returns (idx: seq<nat>)
    ensures |idx| == |Listing(Some(doc))|
    ensures forall j :: 0 <= j < |idx| ==>
              && idx[j] < |doc.items|
              && doc.items[idx[j]].titles != [] && doc.items[idx[j]].hrefs != []
              && Listing(Some(doc))[j] == Dish(Strip(doc.items[idx[j]].titles[0]), Host + doc.items[idx[j]].hrefs[0])
    ensures forall j, j' :: 0 <= j < j' < |idx| ==> idx[j] < idx[j']
    ensures forall k :: 0 <= k < |doc.items| && doc.items[k].titles != [] && doc.items[k].hrefs != [] ==> k in idx
  {
    idx := Seqs.FilterMapSelects(doc.items, Entry);
    forall k | 0 <= k < |doc.items| && doc.items[k].titles != [] && doc.items[k].hrefs != []
      ensures k in idx
    {
      assert Entry(doc.items[k]).Some?;
    }
  }

  // ---------------------------------------------------------------- detail_get

  /** One paragraph's text: its text nodes concatenated and stripped; dropped when that is empty. */
  function ParagraphText(p: seq<string>): Option<string>
  {
    var t := Strip(Join("", p));
    if t == [] then None else Some(t)
  }

  /** A kept paragraph text is never empty and has no whitespace at either end. */
  lemma ParagraphTextTrimmed(p: seq<string>)
    ensures ParagraphText(p).Some? ==> ParagraphText(p).value != [] && Trimmed(ParagraphText(p).value)
  {
    StripResultTrimmed(Join("", p));
  }

  /** The text of a detail page: the kept paragraph texts joined by single spaces. */
  function DetailText(paragraphs: seq<seq<string>>): string
  {
    Join(" ", Seqs.FilterMap(paragraphs, ParagraphText))
  }

  /** The paragraphs that make up the text are exactly the non-blank ones, in order. */
  lemma ParagraphsSelect(paragraphs: seq<seq<string>>) returns (idx: seq<nat>)
    ensures var parts := Seqs.FilterMap(paragraphs, ParagraphText);
            && DetailText(paragraphs) == Join(" ", parts)
            && |idx| == |parts|
            && (forall j :: 0 <= j < |idx| ==>
                 idx[j] < |paragraphs| && parts[j] == Strip(Join("", paragraphs[idx[j]])) && parts[j] != [])
            && (forall j, j' :: 0 <= j < j' < |idx| ==> idx[j] < idx[j'])
            && (forall k :: 0 <= k < |paragraphs| && Strip(Join("", paragraphs[k])) != [] ==> k in idx)
  {
    idx := Seqs.FilterMapSelects(paragraphs, ParagraphText);
    forall k | 0 <= k < |paragraphs| && Strip(Join("", paragraphs[k])) != []
      ensures k in idx
    {
      assert ParagraphText(paragraphs[k]).Some?;
    }
  }

  /** The text of a detail page never starts or ends with whitespace. */
  lemma DetailTextTrimmed(paragraphs: seq<seq<string>>)
    ensures Trimmed(DetailText(paragraphs))
  {
    var parts := Seqs.FilterMap(paragraphs, ParagraphText);
    var idx := Seqs.FilterMapSelects(paragraphs, ParagraphText);
    forall j | 0 <= j < |parts| ensures parts[j] != [] && Trimmed(parts[j]) {
      assert ParagraphText(paragraphs[idx[j]]) == Some(parts[j]);
    }
    JoinTrimmed(parts);
  }

  /** The text is empty exactly when every paragraph is blank. */
  lemma DetailTextEmpty(paragraphs: seq<seq<string>>)
    ensures DetailText(paragraphs) == [] <==>
            forall k :: 0 <= k < |paragraphs| ==> Strip(Join("", paragraphs[k])) == []
  {
    var parts := Seqs.FilterMap(paragraphs, ParagraphText);
    var idx := Seqs.FilterMapSelects(paragraphs, ParagraphText);
    forall j | 0 <= j < |parts| ensures parts[j] != [] {
      assert ParagraphText(paragraphs[idx[j]]) == Some(parts[j]);
    }
    JoinEnds(" ", parts);
    if forall k :: 0 <= k < |paragraphs| ==> Strip(Join("", paragraphs[k])) == [] {
      Seqs.FilterMapExtremes(paragraphs, ParagraphText);
    } else {
      var k :| 0 <= k < |paragraphs| && Strip(Join("", paragraphs[k])) != [];
      assert ParagraphText(paragraphs[k]).Some?;
      assert k in idx;
    }
  }

  /** The file name of the i-th image of a dish (counting from 1). */
  function ImageName(i: nat): string
  {
    "picture" + NatToString(i) + ".jpg"
  }

  /** `os.path.join(output_dir, f'picture{i}.jpg')`. */
  function ImagePath(dir: string, i: nat): string
  {
    PosixPath.Join(dir, ImageName(i))
  }

  /** An image name starts with `picture`, ends with `.jpg` and is a relative name. */
  lemma ImageNameShape(i: nat)
    ensures var r := ImageName(i);
            |r| > 11 && r[..7] == "picture" && r[|r| - 4..] == ".jpg" && !PosixPath.IsAbsolute(r)
  {
  }

  /** An image path starts with its directory and ends with the image name. */
  lemma ImagePathShape(dir: string, i: nat)
    ensures var r, f := ImagePath(dir, i), ImageName(i);
            |dir| + |f| <= |r| && r[..|dir|] == dir && r[|r| - |f|..] == f
  {
    PosixPath.JoinRelative(dir, ImageName(i));
  }

  /** The paths of the first n images of a dish: picture1.jpg … picture{n}.jpg under `dir`, in order. */
  function ImagePaths(dir: string, n: nat): (r: seq<string>)
    ensures |r| == n
    ensures forall k :: 0 <= k < n ==> r[k] == ImagePath(dir, k + 1)
  {
    if n == 0 then [] else ImagePaths(dir, n - 1) + [ImagePath(dir, n)]
  }

  /** Different image numbers give different file names. */
  lemma ImageNameInjective(i: nat, j: nat)
    requires ImageName(i) == ImageName(j)
    ensures i == j
  {
    var a, b := ImageName(i), ImageName(j);
    assert a[7..] == NatToString(i) + ['.'] + "jpg";
    assert b[7..] == NatToString(j) + ['.'] + "jpg";
    DigitsThenMarker(i, j, '.', "jpg", "jpg");
  }

  /** Different image numbers give different paths under the same directory. */
  lemma ImagePathInjective(dir: string, i: nat, j: nat)
    requires ImagePath(dir, i) == ImagePath(dir, j)
    ensures i == j
  {
    PosixPath.JoinCancelLeft(dir, ImageName(i), ImageName(j));
    ImageNameInjective(i, j);
  }

  /** The image paths of one dish are pairwise distinct. */
  lemma ImagePathsDistinct(dir: string, n: nat)
    ensures forall j, k :: 0 <= j < k < n ==> ImagePaths(dir, n)[j] != ImagePaths(dir, n)[k]
  {
    forall j, k | 0 <= j < k < n ensures ImagePaths(dir, n)[j] != ImagePaths(dir, n)[k] {
      if ImagePaths(dir, n)[j] == ImagePaths(dir, n)[k] {
        ImagePathInjective(dir, j + 1, k + 1);
      }
    }
  }

  /** How many images, from the i-th on, download and save before the first one that fails. */
  function StoredRun(web: Web, srcs: seq<string>, dir: string, i: nat): (n: nat)
    requires i <= |srcs|
    ensures i <= n <= |srcs|
    ensures forall k :: i <= k < n ==> web.stored(srcs[k], ImagePath(dir, k + 1))
    ensures n < |srcs| ==> !web.stored(srcs[n], ImagePath(dir, n + 1))
    decreases |srcs| - i
  {
    if i == |srcs| || !web.stored(srcs[i], ImagePath(dir, i + 1)) then i
    else StoredRun(web, srcs, dir, i + 1)
  }

  /** What `detail_get` returns: the text and the image paths when the page was fetched, has a
      content div and every image was saved; `("", [])` when anything raised. */
  function Detail(web: Web, url: string, dir: string): (r: (string, seq<string>))
    ensures r.1 == [] || r.1 == Saved(web, url, dir)
  {
    match web.fetch(url)
    case None => ("", [])
    case Some(doc) =>
      match doc.content
      case None => ("", [])
      case Some(div) =>
        if StoredRun(web, div.imgSrcs, dir, 0) == |div.imgSrcs| then
          (DetailText(div.paragraphs), ImagePaths(dir, |div.imgSrcs|))
        else ("", [])
  }

  /** The image files `detail_get` leaves on disk: those written before the first failure,
      kept there even when the failure makes it return no paths. */
  function Saved(web: Web, url: string, dir: string): (r: seq<string>)
    ensures forall k :: 0 <= k < |r| ==> r[k] == ImagePath(dir, k + 1)
    ensures web.fetch(url).None? || web.fetch(url).value.content.None? ==> r == []
    ensures web.fetch(url).Some? && web.fetch(url).value.content.Some? ==>
              var srcs := web.fetch(url).value.content.value.imgSrcs;
              && |r| == StoredRun(web, srcs, dir, 0)
              && (forall k :: 0 <= k < |r| ==> web.stored(srcs[k], r[k]))
              && (|r| < |srcs| ==> !web.stored(srcs[|r|], ImagePath(dir, |r| + 1)))
  {
    match web.fetch(url)
    case None => []
    case Some(doc) =>
      match doc.content
      case None => []
      case Some(div) => ImagePaths(dir, StoredRun(web, div.imgSrcs, dir, 0))
  }

  /** `detail_get`: builds the text, then saves the images one by one; the first failure
      abandons the dish. `saved` lists the files written on the way. */
  method DetailGet(web: Web, url: string, outputDir: string) returns (text: string, imgPaths: seq<string>, saved: seq<string>)
    ensures (text, imgPaths) == Detail(web, url, outputDir)
    ensures saved == Saved(web, url, outputDir)
  {
    var page := web.fetch(url);
    if page.None? || page.value.content.None? {
      return "", [], [];
    }
    var div := page.value.content.value;
    var textContent := DetailText(div.paragraphs);
    var srcs := div.imgSrcs;
    var paths: seq<string> := [];
    var i := 0;
    while i < |srcs|
      invariant 0 <= i <= |srcs|
      invariant paths == ImagePaths(outputDir, i)
      invariant forall k :: 0 <= k < i ==> web.stored(srcs[k], ImagePath(outputDir, k + 1))
    {
      var path := ImagePath(outputDir, i + 1);
      if !web.stored(srcs[i], path) {
        return "", [], paths;
      }
      paths := paths + [path];
      i := i + 1;
    }
    return textContent, paths, paths;
  }

  /** All or nothing: a dish yields either no image paths, or the text and one path per image
      `src` of its content div, every one of them saved. A missing page, a missing content div
      or any failed image leaves it with nothing. */
  lemma DetailAllOrNothing(web: Web, url: string, dir: string)
    ensures var (text, paths) := Detail(web, url, dir);
            paths != [] ==>
              && web.fetch(url).Some? && web.fetch(url).value.content.Some?
              && var div := web.fetch(url).value.content.value;
              && text == DetailText(div.paragraphs)
              && paths == ImagePaths(dir, |div.imgSrcs|)
              && forall k :: 0 <= k < |div.imgSrcs| ==> web.stored(div.imgSrcs[k], ImagePath(dir, k + 1))
    ensures web.fetch(url).None? || web.fetch(url).value.content.None? ==> Detail(web, url, dir) == ("", [])
    ensures web.fetch(url).Some? && web.fetch(url).value.content.Some? ==>
              var div := web.fetch(url).value.content.value;
              (exists k :: 0 <= k < |div.imgSrcs| && !web.stored(div.imgSrcs[k], ImagePath(dir, k + 1))) ==>
              Detail(web, url, dir) == ("", [])
    ensures web.fetch(url).Some? && web.fetch(url).value.content.Some? ==>
              var div := web.fetch(url).value.content.value;
              (forall k :: 0 <= k < |div.imgSrcs| ==> web.stored(div.imgSrcs[k], ImagePath(dir, k + 1))) ==>
              Detail(web, url, dir) == (DetailText(div.paragraphs), ImagePaths(dir, |div.imgSrcs|))
  {
    if web.fetch(url).Some? && web.fetch(url).value.content.Some? {
      var srcs := web.fetch(url).value.content.value.imgSrcs;
      var n := StoredRun(web, srcs, dir, 0);
      if n < |srcs| {
        assert !web.stored(srcs[n], ImagePath(dir, n + 1));
      }
    }
  }
}
