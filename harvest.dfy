/**
 * One cuisine job of the harvester (`fetch_and_process`) and the run that writes the
 * manifest header and then the rows of every job (`main`). Rows go to a writer that only
 * appends; the model runs the jobs one after another.
 */
module Harvest {
  import opened PyStr
  import PosixPath
  import Seqs
  import opened Scraper

  /** One manifest row: text, image path, label. */
  type Row = seq<string>

  /** The header row `main` writes before any job starts. */
  const Header: Row := ["text", "img_path", "label"]

  /** One configured job: the cuisine's landing page, its category folder and its label. */
  datatype JobSpec = JobSpec(url: string, category: string, cuisine: string)

  /** The jobs `main` submits. */
  function UrlsCuisines(): seq<JobSpec>
  {
    [
      JobSpec("https://www.food365.com.cn/caixi/lucai/", "菜系", "鲁菜"),
      JobSpec("https://www.food365.com.cn/caixi/chuancai/", "菜系", "川菜")
    ]
  }

  /** The CSV writer shared by the jobs, as the sequence of rows written so far. */
  class CsvWriter {
    var rows: seq<Row>

    constructor ()
      ensures rows == []
    {
      rows := [];
    }

    /** `writerow`: appends one row and touches nothing else. */
    method WriteRow(row: Row)
      modifies this
      ensures rows == old(rows) + [row]
    {
      rows := rows + [row];
    }
  }

  // ---------------------------------------------------------------- pages

  /** The URL of listing page `page`: the landing URL itself for page 1, `{url}/index_{page}.html` after it. */
  function PageUrl(url: string, page: int): (r: string)
    ensures |url| <= |r| && r[..|url|] == url
    ensures r == url <==> page <= 1
  {
    if page > 1 then url + "/index_" + NatToString(page) + ".html" else url
  }

  /** The listing pages a job requests: pages 1 to `total` in increasing order, none when `total < 1`. */
  function PageUrls(url: string, total: int): (r: seq<string>)
    ensures |r| == if total < 1 then 0 else total
    ensures forall k :: 0 <= k < |r| ==> r[k] == PageUrl(url, k + 1)
    decreases total
  {
    if total < 1 then [] else PageUrls(url, total - 1) + [PageUrl(url, total)]
  }

  /** Different pages have different URLs. */
  lemma PageUrlInjective(url: string, j: int, k: int)
    requires 1 <= j < k
    ensures PageUrl(url, j) != PageUrl(url, k)
  {
    if j > 1 && PageUrl(url, j) == PageUrl(url, k) {
      var n := |url + "/index_"|;
      assert PageUrl(url, j)[n..] == NatToString(j) + ['.'] + "html";
      assert PageUrl(url, k)[n..] == NatToString(k) + ['.'] + "html";
      DigitsThenMarker(j, k, '.', "html", "html");
    }
  }

  /** Each page is requested exactly once: the requested URLs are pairwise distinct. */
  lemma PageUrlsDistinct(url: string, total: int)
    ensures forall j, k :: 0 <= j < k < |PageUrls(url, total)| ==> PageUrls(url, total)[j] != PageUrls(url, total)[k]
  {
    forall j, k | 0 <= j < k < |PageUrls(url, total)|
      ensures PageUrls(url, total)[j] != PageUrls(url, total)[k]
    {
      PageUrlInjective(url, j + 1, k + 1);
    }
  }

  // ---------------------------------------------------------------- folders

  /** The folder name of the `index`-th dish of a page: `菜名{index}_{name}`. */
  function FolderName(index: nat, name: string): string
  {
    "菜名" + NatToString(index) + "_" + name
  }

  /** The folder of the cuisine's dishes, `os.path.join('./result', category, cuisine)`. */
  function CuisineDir(category: string, cuisine: string): string
  {
    PosixPath.Join(PosixPath.Join("./result", category), cuisine)
  }

  /** A folder name starts with `菜名` and ends with `_` and the dish name. */
  lemma FolderNameShape(index: nat, name: string)
    ensures var r := FolderName(index, name);
            |r| >= |name| + 4 && r[..2] == "菜名" && r[|r| - |name| - 1..] == "_" + name
  {
  }

  /** A relative cuisine name ends its folder path; with a relative category too, the path starts
      with `./result`. */
  lemma CuisineDirShape(category: string, cuisine: string)
    ensures var r := CuisineDir(category, cuisine);
            !PosixPath.IsAbsolute(cuisine) ==> |cuisine| <= |r| && r[|r| - |cuisine|..] == cuisine
    ensures var r := CuisineDir(category, cuisine);
            !PosixPath.IsAbsolute(category) && !PosixPath.IsAbsolute(cuisine) ==> |r| >= 8 && r[..8] == "./result"
  {
    var top := PosixPath.Join("./result", category);
    if !PosixPath.IsAbsolute(category) {
      PosixPath.JoinRelative("./result", category);
    }
    if !PosixPath.IsAbsolute(cuisine) {
      PosixPath.JoinRelative(top, cuisine);
    }
  }

  /** `os.path.join('./result', category, cuisine, f'菜名{index}_{name}')`, which joins from the left. */
  function FolderPath(category: string, cuisine: string, index: nat, name: string): (r: string)
    ensures var dir, f := CuisineDir(category, cuisine), FolderName(index, name);
            |dir| + |f| <= |r| && r[..|dir|] == dir && r[|r| - |f|..] == f
  {
    PosixPath.JoinRelative(CuisineDir(category, cuisine), FolderName(index, name));
    PosixPath.Join(CuisineDir(category, cuisine), FolderName(index, name))
  }

  /** A folder component that `os.path.join` neither restarts at nor merges with the next one. */
  predicate PlainComponent(s: string)
  {
    s != [] && !PosixPath.IsAbsolute(s) && !PosixPath.EndsWithSep(s)
  }

  /** For plain category and cuisine names the folder is `./result/{category}/{cuisine}/菜名{index}_{name}`. */
  lemma FolderPathShape(category: string, cuisine: string, index: nat, name: string)
    requires PlainComponent(category) && PlainComponent(cuisine)
    ensures FolderPath(category, cuisine, index, name) == "./result/" + category + "/" + cuisine + "/" + FolderName(index, name)
  {
    var root := "./result";
    assert root != [] && !PosixPath.EndsWithSep(root);
    var b1 := PosixPath.Join(root, category);
    PosixPath.JoinRelative(root, category);
    assert b1 == root + "/" + category;
    assert b1[|b1| - 1] == category[|category| - 1];
    var b2 := PosixPath.Join(b1, cuisine);
    PosixPath.JoinRelative(b1, cuisine);
    assert b2 == b1 + "/" + cuisine;
    assert b2[|b2| - 1] == cuisine[|cuisine| - 1];
    PosixPath.JoinRelative(b2, FolderName(index, name));
  }

  /** The part of a dish folder path shared by every dish of a cuisine: everything up to the index. */
  function FolderPrefix(category: string, cuisine: string): string
  {
    var base := CuisineDir(category, cuisine);
    base + PosixPath.Separator(base) + "菜名"
  }

  /** A dish folder is the shared prefix followed by the dish's index, `_` and its name. */
  lemma FolderPathSplit(category: string, cuisine: string, index: nat, name: string)
    ensures FolderPath(category, cuisine, index, name) == FolderPrefix(category, cuisine) + (NatToString(index) + ['_'] + name)
  {
    var base := CuisineDir(category, cuisine);
    PosixPath.JoinRelative(base, FolderName(index, name));
    assert FolderName(index, name) == "菜名" + (NatToString(index) + ['_'] + name);
    Seqs.AppendAssoc(base + PosixPath.Separator(base), "菜名", NatToString(index) + ['_'] + name);
  }

  /** An image path is its folder followed by the separator and the image name. */
  lemma ImagePathSplit(dir: string, k: nat)
    ensures ImagePath(dir, k) == dir + (PosixPath.Separator(dir) + ImageName(k))
  {
    PosixPath.JoinRelative(dir, ImageName(k));
  }

  /** The image path of the `i`-th dish of a page, from the shared prefix on, is the index,
      `_` and a tail that depends only on the dish. */
  lemma DishImagePathSplit(category: string, cuisine: string, i: nat, name: string, k: nat)
    returns (tail: string)
    ensures var p := ImagePath(FolderPath(category, cuisine, i, name), k);
            var pre := FolderPrefix(category, cuisine);
            |pre| <= |p| && p[|pre|..] == NatToString(i) + ['_'] + tail
  {
    var f := FolderPath(category, cuisine, i, name);
    var pre := FolderPrefix(category, cuisine);
    var mid := NatToString(i) + ['_'];
    var rest := PosixPath.Separator(f) + ImageName(k);
    FolderPathSplit(category, cuisine, i, name);
    ImagePathSplit(f, k);
    tail := name + rest;
    Seqs.AppendAssoc(pre, mid + name, rest);
    Seqs.AppendAssoc(mid, name, rest);
    assert ImagePath(f, k) == pre + (mid + tail);
  }

  /** Two dishes at different positions of a page never share an image path: the folder index
      tells them apart whatever their names. */
  lemma DifferentIndicesDistinctPaths(category: string, cuisine: string, i: nat, name1: string, k: nat,
                                      j: nat, name2: string, l: nat)
    requires i != j
    ensures ImagePath(FolderPath(category, cuisine, i, name1), k) != ImagePath(FolderPath(category, cuisine, j, name2), l)
  {
    var tail1 := DishImagePathSplit(category, cuisine, i, name1, k);
    var tail2 := DishImagePathSplit(category, cuisine, j, name2, l);
    if ImagePath(FolderPath(category, cuisine, i, name1), k) == ImagePath(FolderPath(category, cuisine, j, name2), l) {
      DigitsThenMarker(i, j, '_', tail1, tail2);
    }
  }

  /** The image paths of two different dishes of one page never coincide, and neither do
      two images of one dish. */
  lemma PageImagePathsDistinct(category: string, cuisine: string, i: nat, name1: string, k: nat,
                               j: nat, name2: string, l: nat)
    requires i != j || (name1 == name2 && k != l)
    ensures ImagePath(FolderPath(category, cuisine, i, name1), k) != ImagePath(FolderPath(category, cuisine, j, name2), l)
  {
    if i != j {
      DifferentIndicesDistinctPaths(category, cuisine, i, name1, k, j, name2, l);
    } else if ImagePath(FolderPath(category, cuisine, i, name1), k) == ImagePath(FolderPath(category, cuisine, j, name2), l) {
      ImagePathInjective(FolderPath(category, cuisine, i, name1), k, l);
    }
  }

  // ---------------------------------------------------------------- rows

  /** The rows written for one dish: `[text, path, label]` for each of its image paths, in order. */
  function RowsFor(text: string, paths: seq<string>, tag: string): (r: seq<Row>)
    ensures |r| == |paths|
    ensures forall k :: 0 <= k < |r| ==> r[k] == [text, paths[k], tag]
  {
    if paths == [] then [] else RowsFor(text, paths[..|paths| - 1], tag) + [[text, paths[|paths| - 1], tag]]
  }

  /** The rows of the `index`-th dish of a page, from what `detail_get` returns for it. */
  function DishRows(web: Web, category: string, cuisine: string, index: nat, dish: Dish): (r: seq<Row>)
    ensures forall k :: 0 <= k < |r| ==> |r[k]| == 3 && r[k][2] == cuisine
  {
    var d := Detail(web, dish.link, FolderPath(category, cuisine, index, dish.name));
    RowsFor(d.0, d.1, cuisine)
  }

  /** The rows of the dishes of a page, numbered from 1, dish after dish. */
  function DishesRows(web: Web, category: string, cuisine: string, dishes: seq<Dish>): (r: seq<Row>)
    ensures forall k :: 0 <= k < |r| ==> |r[k]| == 3 && r[k][2] == cuisine
  {
    if dishes == [] then []
    else DishesRows(web, category, cuisine, dishes[..|dishes| - 1])
         + DishRows(web, category, cuisine, |dishes|, dishes[|dishes| - 1])
  }

  /** The rows of listing page `page`. */
  function PageRows(web: Web, url: string, category: string, cuisine: string, page: int): (r: seq<Row>)
    ensures forall k :: 0 <= k < |r| ==> |r[k]| == 3 && r[k][2] == cuisine
  {
    DishesRows(web, category, cuisine, Listing(web.fetch(PageUrl(url, page))))
  }

  /** The rows of pages 1 to `n`, page after page. */
  function PagesRows(web: Web, url: string, category: string, cuisine: string, n: int): (r: seq<Row>)
    ensures forall k :: 0 <= k < |r| ==> |r[k]| == 3 && r[k][2] == cuisine
    decreases n
  {
    if n < 1 then [] else PagesRows(web, url, category, cuisine, n - 1) + PageRows(web, url, category, cuisine, n)
  }

  /** Everything one job writes: the rows of pages 1 to the page count `page_get` reports. */
  function JobRows(web: Web, url: string, category: string, cuisine: string): (r: seq<Row>)
    ensures forall k :: 0 <= k < |r| ==> |r[k]| == 3 && r[k][2] == cuisine
  {
    PagesRows(web, url, category, cuisine, PageCount(web.fetch(url)))
  }

  /** The five-second pauses of pages 1 to `n`: one after every dish listed. */
  function PagesPauses(web: Web, url: string, n: int): nat
    decreases n
  {
    if n < 1 then 0 else PagesPauses(web, url, n - 1) + |Listing(web.fetch(PageUrl(url, n)))|
  }

  /** The rows of all jobs, job after job. */
  function AllRows(web: Web, jobs: seq<JobSpec>): (r: seq<Row>)
    ensures forall k :: 0 <= k < |r| ==> |r[k]| == 3
  {
    if jobs == [] then []
    else
      var job := jobs[|jobs| - 1];
      AllRows(web, jobs[..|jobs| - 1]) + JobRows(web, job.url, job.category, job.cuisine)
  }

  /** Extending a page's dish list by one dish appends that dish's rows. */
  lemma DishesRowsSnoc(web: Web, category: string, cuisine: string, dishes: seq<Dish>, index: nat)
    requires index < |dishes|
    ensures DishesRows(web, category, cuisine, dishes[..index + 1])
         == DishesRows(web, category, cuisine, dishes[..index]) + DishRows(web, category, cuisine, index + 1, dishes[index])
  {
    assert dishes[..index + 1][..index] == dishes[..index];
  }

  /** Extending the job list by one job appends that job's rows. */
  lemma AllRowsSnoc(web: Web, jobs: seq<JobSpec>, i: nat)
    requires i < |jobs|
    ensures AllRows(web, jobs[..i + 1]) == AllRows(web, jobs[..i]) + JobRows(web, jobs[i].url, jobs[i].category, jobs[i].cuisine)
  {
    assert jobs[..i + 1][..i] == jobs[..i];
  }

  /** Pages are written in order: the rows of the first `m` pages are a prefix of those of the first `n`. */
  lemma {:induction false} PagesRowsPrefix(web: Web, url: string, category: string, cuisine: string, m: int, n: int)
    requires m <= n
    ensures PagesRows(web, url, category, cuisine, m) <= PagesRows(web, url, category, cuisine, n)
    decreases n - m
  {
    if m < n && n >= 1 {
      PagesRowsPrefix(web, url, category, cuisine, m, n - 1);
    }
  }

  /** Jobs are written in order: the rows of the first `i` jobs are a prefix of those of all of them. */
  lemma {:induction false} AllRowsPrefix(web: Web, jobs: seq<JobSpec>, i: nat)
    requires i <= |jobs|
    ensures AllRows(web, jobs[..i]) <= AllRows(web, jobs)
    decreases |jobs| - i
  {
    if i < |jobs| {
      AllRowsSnoc(web, jobs, i);
      AllRowsPrefix(web, jobs, i + 1);
    } else {
      assert jobs[..i] == jobs;
    }
  }

  /** The labels of a list of jobs. */
  function Cuisines(jobs: seq<JobSpec>): set<string>
  {
    set j | j in jobs :: j.cuisine
  }

  /** Every row of the manifest is labelled with the cuisine of one of the jobs. */
  lemma {:induction false} AllRowsLabels(web: Web, jobs: seq<JobSpec>)
    ensures forall k :: 0 <= k < |AllRows(web, jobs)| ==>
              AllRows(web, jobs)[k][2] in Cuisines(jobs)
  {
    if jobs != [] {
      var init, job := jobs[..|jobs| - 1], jobs[|jobs| - 1];
      AllRowsLabels(web, init);
      var before := AllRows(web, init);
      var rows := JobRows(web, job.url, job.category, job.cuisine);
      assert AllRows(web, jobs) == before + rows;
      forall k | 0 <= k < |AllRows(web, jobs)|
        ensures AllRows(web, jobs)[k][2] in Cuisines(jobs)
      {
        if k < |before| {
          assert AllRows(web, jobs)[k] == before[k];
          assert before[k][2] in Cuisines(init);
          var j0 :| j0 in init && before[k][2] == j0.cuisine;
          assert j0 in jobs;
        } else {
          assert AllRows(web, jobs)[k] == rows[k - |before|];
          assert job in jobs;
        }
      }
    }
  }

  /** A page listing a single dish writes that dish's rows, under folder index 1. */
  lemma SingleDishPage(web: Web, url: string, category: string, cuisine: string, page: int, d: Dish)
    requires Listing(web.fetch(PageUrl(url, page))) == [d]
    ensures PageRows(web, url, category, cuisine, page) == DishRows(web, category, cuisine, 1, d)
  {
    assert [d][..0] == [];
    assert DishesRows(web, category, cuisine, [d]) == [] + DishRows(web, category, cuisine, 1, d);
  }

  /** A dish that is fetched, has a content div and saves every image writes exactly one row
      per image `src`: its text, the i-th picture path and the cuisine. */
  lemma DishRowsComplete(web: Web, category: string, cuisine: string, index: nat, d: Dish)
    requires web.fetch(d.link).Some? && web.fetch(d.link).value.content.Some?
    requires var srcs := web.fetch(d.link).value.content.value.imgSrcs;
             forall k :: 0 <= k < |srcs| ==>
               web.stored(srcs[k], ImagePath(FolderPath(category, cuisine, index, d.name), k + 1))
    ensures var div := web.fetch(d.link).value.content.value;
            var r := DishRows(web, category, cuisine, index, d);
            && |r| == |div.imgSrcs|
            && forall k :: 0 <= k < |r| ==>
                 r[k] == [DetailText(div.paragraphs), ImagePath(FolderPath(category, cuisine, index, d.name), k + 1), cuisine]
  {
    DetailAllOrNothing(web, d.link, FolderPath(category, cuisine, index, d.name));
  }

  /** A dish whose images were all saved writes its first row with the path of `picture1.jpg` in its folder. */
  lemma DishFirstRow(web: Web, category: string, cuisine: string, index: nat, d: Dish)
    requires Detail(web, d.link, FolderPath(category, cuisine, index, d.name)).1 != []
    ensures var r := DishRows(web, category, cuisine, index, d);
            r != [] && r[0][1] == ImagePath(FolderPath(category, cuisine, index, d.name), 1)
  {
    var dir := FolderPath(category, cuisine, index, d.name);
    DetailAllOrNothing(web, d.link, dir);
    var (text, paths) := Detail(web, d.link, dir);
    var div := web.fetch(d.link).value.content.value;
    assert paths == ImagePaths(dir, |div.imgSrcs|);
    assert paths[0] == ImagePath(dir, 1);
    var r := RowsFor(text, paths, cuisine);
    assert r == DishRows(web, category, cuisine, index, d);
    assert r[0] == [text, paths[0], cuisine];
    assert r != [] && r[0][1] == ImagePath(dir, 1);
  }

  /** The folder index restarts on every page, so a dish listed under the same name at the same
      position of two pages gets the same folder: both dishes' first image goes to the same path,
      and the manifest points two rows at one file. */
  lemma RepeatedDishSharesImagePath(web: Web, url: string, category: string, cuisine: string, d1: Dish, d2: Dish)
    requires Listing(web.fetch(PageUrl(url, 1))) == [d1]
    requires Listing(web.fetch(PageUrl(url, 2))) == [d2]
    requires d1.name == d2.name
    requires Detail(web, d1.link, FolderPath(category, cuisine, 1, d1.name)).1 != []
    requires Detail(web, d2.link, FolderPath(category, cuisine, 1, d2.name)).1 != []
    ensures var r := PagesRows(web, url, category, cuisine, 2);
            var n1 := |PageRows(web, url, category, cuisine, 1)|;
            && 0 < n1 < |r|
            && r[0][1] == ImagePath(FolderPath(category, cuisine, 1, d1.name), 1)
            && r[n1][1] == r[0][1]
  {
    var rows1 := PageRows(web, url, category, cuisine, 1);
    var rows2 := PageRows(web, url, category, cuisine, 2);
    SingleDishPage(web, url, category, cuisine, 1, d1);
    SingleDishPage(web, url, category, cuisine, 2, d2);
    DishFirstRow(web, category, cuisine, 1, d1);
    DishFirstRow(web, category, cuisine, 1, d2);
    var r := PagesRows(web, url, category, cuisine, 2);
    assert PagesRows(web, url, category, cuisine, 1) == [] + rows1;
    assert r == ([] + rows1) + rows2;
    assert r[0] == rows1[0];
    assert r[|rows1|] == rows2[0];
  }

  /** The configured landing URLs end in `/`, so from page 2 on the listing URL has a doubled slash. */
  lemma ConfiguredPageUrls()
    ensures PageUrl(UrlsCuisines()[0].url, 1) == "https://www.food365.com.cn/caixi/lucai/"
    ensures PageUrl(UrlsCuisines()[0].url, 2) == "https://www.food365.com.cn/caixi/lucai//index_2.html"
  {
    assert NatToString(2) == "2";
  }

  /** Every label in the manifest `main` writes is one of the two configured cuisines. */
  lemma ConfiguredLabels(web: Web)
    ensures forall k :: 0 <= k < |AllRows(web, UrlsCuisines())| ==> AllRows(web, UrlsCuisines())[k][2] in {"鲁菜", "川菜"}
  {
    AllRowsLabels(web, UrlsCuisines());
    assert Cuisines(UrlsCuisines()) == {"鲁菜", "川菜"} by {
      var jobs := UrlsCuisines();
      assert jobs[0] in jobs && jobs[1] in jobs;
      assert forall j :: j in jobs ==> j == jobs[0] || j == jobs[1];
    }
  }

  // ---------------------------------------------------------------- the job

  /** The innermost loop of `fetch_and_process`: one `writerow` per image path of a dish. */
  method WriteDishRows(writer: CsvWriter, text: string, imgPaths: seq<string>, tag: string)
    modifies writer
    ensures writer.rows == old(writer.rows) + RowsFor(text, imgPaths, tag)
  {
    var j := 0;
    Seqs.AppendNil(writer.rows);
    while j < |imgPaths|
      invariant 0 <= j <= |imgPaths|
      invariant writer.rows == old(writer.rows) + RowsFor(text, imgPaths[..j], tag)
    {
      Seqs.AppendAssoc(old(writer.rows), RowsFor(text, imgPaths[..j], tag), [[text, imgPaths[j], tag]]);
      writer.WriteRow([text, imgPaths[j], tag]);
      assert imgPaths[..j + 1][..j] == imgPaths[..j];
      j := j + 1;
    }
    assert imgPaths[..j] == imgPaths;
  }

  /** The dish loop of `fetch_and_process` for one page: fetch each dish into its numbered
      folder, write its rows, then pause; returns the number of pauses. */
  method WriteDishes(web: Web, category: string, cuisine: string, dishes: seq<Dish>, writer: CsvWriter)
    returns (pauses: nat)
    modifies writer
    ensures writer.rows == old(writer.rows) + DishesRows(web, category, cuisine, dishes)
    ensures pauses == |dishes|
  {
    pauses := 0;
    var index := 0;
    Seqs.AppendNil(writer.rows);
    while index < |dishes|
      invariant 0 <= index <= |dishes|
      invariant writer.rows == old(writer.rows) + DishesRows(web, category, cuisine, dishes[..index])
      invariant pauses == index
    {
      var dish := dishes[index];
      var name, link := dish.name, dish.link;
      var folderPath := FolderPath(category, cuisine, index + 1, name);
      var textContent, imgPaths, _ := DetailGet(web, link, folderPath);
      var tag := cuisine;
      WriteDishRows(writer, textContent, imgPaths, tag);
      pauses := pauses + 1;
      DishesRowsSnoc(web, category, cuisine, dishes, index);
      Seqs.AppendAssoc(old(writer.rows), DishesRows(web, category, cuisine, dishes[..index]), DishRows(web, category, cuisine, index + 1, dish));
      index := index + 1;
    }
    assert dishes[..index] == dishes;
  }

  /** `fetch_and_process`: pages, then the dishes of each page, then the images of each dish.
      `visited` lists the listing URLs requested, `pauses` counts the five-second sleeps. */
  method FetchAndProcess(web: Web, url: string, category: string, cuisine: string, writer: CsvWriter)
    returns (visited: seq<string>, pauses: nat)
    modifies writer
    ensures writer.rows == old(writer.rows) + JobRows(web, url, category, cuisine)
    ensures visited == PageUrls(url, PageCount(web.fetch(url)))
    ensures pauses == PagesPauses(web, url, PageCount(web.fetch(url)))
  {
    var totalPages := PageCount(web.fetch(url));
    visited, pauses := [], 0;
    var page := 1;
    Seqs.AppendNil(writer.rows);
    while page <= totalPages
      invariant 1 <= page <= (if totalPages < 1 then 1 else totalPages + 1)
      invariant writer.rows == old(writer.rows) + PagesRows(web, url, category, cuisine, page - 1)
      invariant visited == PageUrls(url, page - 1)
      invariant pauses == PagesPauses(web, url, page - 1)
    {
      var pageUrl := PageUrl(url, page);
      visited := visited + [pageUrl];
      var dishes := GetData(web, pageUrl);
      var n := WriteDishes(web, category, cuisine, dishes, writer);
      pauses := pauses + n;
      Seqs.AppendAssoc(old(writer.rows), PagesRows(web, url, category, cuisine, page - 1), PageRows(web, url, category, cuisine, page));
      page := page + 1;
    }
    assert page - 1 == totalPages || (totalPages < 1 && page == 1);
    assert PagesRows(web, url, category, cuisine, page - 1) == PagesRows(web, url, category, cuisine, totalPages);
    assert PageUrls(url, page - 1) == PageUrls(url, totalPages);
  }

  /** `main`: opens the manifest, writes the header, then runs every job against the same writer. */
  method Harvest(web: Web, jobs: seq<JobSpec>) returns (writer: CsvWriter)
    ensures fresh(writer)
    ensures writer.rows == [Header] + AllRows(web, jobs)
  {
    writer := new CsvWriter();
    writer.WriteRow(Header);
    var i := 0;
    while i < |jobs|
      invariant 0 <= i <= |jobs|
      invariant writer.rows == [Header] + AllRows(web, jobs[..i])
    {
      var job := jobs[i];
      var _, _ := FetchAndProcess(web, job.url, job.category, job.cuisine, writer);
      AllRowsSnoc(web, jobs, i);
      Seqs.AppendAssoc([Header], AllRows(web, jobs[..i]), JobRows(web, job.url, job.category, job.cuisine));
      i := i + 1;
    }
    assert jobs[..i] == jobs;
  }
}
