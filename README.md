# Dish harvester and classifier label bookkeeping, in Dafny

This project models two parts of a small food-image project.

The first part is the harvester in `prepare_floders.py`. For each configured cuisine it works out how many listing pages the cuisine has (`page_get`). It then reads the dishes of every page (`get_data`) and fetches each dish's text and pictures (`detail_get`). Finally it writes one manifest row `[text, img_path, label]` per saved picture, after a header row (`fetch_and_process`, `main`).

The second part is the label bookkeeping of the vision-and-language classifier in `multimodal_training.py`:

- the `label_to_id` map built from the training labels, its inverse `id_to_label`, and `num_labels`;
- how predicted ids are turned back into labels;
- the image size chosen from the image model type;
- what the dataset's `__getitem__` and `__len__` return;
- the table from classifier name to image model.

The model works on what the network gives back, not on HTML or bytes:

- A fetched page is a `Scraper.Document`: the pager's text nodes, the listing items (title texts and hrefs), and the first content `<div>` (the text nodes of each paragraph, and the image `src`s).
- A `Scraper.Web` bundles two things. `fetch(url)` answers `None` wherever the request, the status check or the parse raises. `stored(src, path)` says whether downloading an image and writing it to `path` succeeded.
- Python's own string and dict semantics are written out where the code relies on them. `PyStr` covers `str.isspace`, `str.strip`, `sep.join`, `str(n)`, `int(s)` and the ASCII part of `str.lower`. Note that `int(s)` does not skip quite the whitespace `str.strip` does: it refuses the four ASCII separators U+001C–U+001F, and it refuses more than 4300 digits. `PosixPath` covers `os.path.join`. `PyDict` covers dict items, lookup, the inverting comprehension, `enumerate` and `Series.unique`.

Three behaviours of the code deserve a note:

- **Image names are per dish.** Images are named `picture1.jpg`, `picture2.jpg`, … inside each dish's folder. No shared counter numbers them across a cuisine. The model follows that (`Scraper.ImagePaths`).
- **The folder index restarts on every page.** `enumerate(dishes, start=1)` runs per page, so two dishes with the same name at the same position of two pages share a folder. The second one's pictures overwrite the first's, and two manifest rows point at one file (`Harvest.RepeatedDishSharesImagePath`). File names are therefore unique among the dishes of one page (`Harvest.PageImagePathsDistinct`), not across a cuisine.
- **Sleeps and URLs.** The five-second sleep comes after every dish, not after every page (`prepare_floders.py:107`). The configured landing URLs end in `/`, so every page after the first is requested as `…/lucai//index_2.html` (`Harvest.ConfiguredPageUrls`).

## Model

| member | source | states |
|---|---|---|
| Scraper.PageCount | prepare_floders.py:14-24 | The page count is `int` of the first pager text when that parses. Anything other than 1 comes only from such a parse. A missing page, a missing pager, or a text `int()` refuses gives 1. |
| Scraper.PageCountOfNumber | prepare_floders.py:21 | A pager whose first text is a decimal number, padded with whitespace `int()` skips, gives exactly that number. A number of more than 4300 digits gives 1. |
| Scraper.PageCountSeparatorPadding | prepare_floders.py:21-24 | A pager text of U+001C followed by "5" gives 1, because `int()` raises ValueError on it. |
| PyStr.ParsePaddedNat | prepare_floders.py:21 | `int(ws + str(n) + ws') == n` for padding made of the whitespace `int()` skips, when `str(n)` has at most 4300 digits. A longer number raises ValueError. |
| PyStr.ParseNatToString | prepare_floders.py:21 | `int(str(n)) == n` when `str(n)` has at most 4300 digits; a longer one raises ValueError. |
| PyStr.IntSpace | prepare_floders.py:21 | The whitespace `int()` skips: every `str.isspace` character except U+001C–U+001F. |
| PyStr.IntStrip | prepare_floders.py:21 | The text `int()` parses: the input with `IntSpace` characters removed from both ends. The result keeps only characters from the input and has no such character at either end. |
| PyStr.DigitCount | prepare_floders.py:21 | The number of digits `int()` counts against its 4300-digit limit, with underscores not counted. It is never more than the text's length. |
| PyStr.StripRemovesSeparator | prepare_floders.py:40 | `str.strip()` removes a leading U+001C. |
| PyStr.ParseIntRefusesSeparator | prepare_floders.py:21 | `int()` refuses a leading U+001C, where `strip()` would remove it. |
| PyStr.Strip | prepare_floders.py:40 | `str.strip()` as `rstrip` after `lstrip`. `PyStr.StripIsTrim` and `PyStr.StripIdempotent` state its properties. |
| PyStr.ParseInt | prepare_floders.py:21 | `int(s)` succeeds only when the text left by `IntStrip` is not empty and has only digits, signs and underscores. `PyStr.ParsePaddedNat`, `PyStr.ParseNatToString` and `PyStr.ParseIntRefusesSeparator` state what it returns. |
| PyStr.IsSpace | prepare_floders.py:40 | The characters `str.isspace` accepts, which are the characters `str.strip()` removes. |
| PyStr.StripIsTrim | prepare_floders.py:40 | `strip` returns a slice of its input, and everything cut from either end is whitespace. |
| PyStr.StripIdempotent | prepare_floders.py:40 | Stripping twice is stripping once. |
| Scraper.Entry | prepare_floders.py:37-42 | A listing item yields a dish exactly when its title link has both a text and an href. The dish's name has no whitespace at either end, and its link is the host followed by the first href. |
| Scraper.Listing | prepare_floders.py:28-46 | `get_data`'s result for a fetched page: no dishes when the fetch failed, and never more dishes than listing items. |
| Scraper.Dish.AsDict | prepare_floders.py:42 | Each listing entry is a one-key dict `{name: link}`, so `dish.items()` yields exactly one pair. |
| Scraper.GetData | prepare_floders.py:28-46 | The listing loop returns exactly `Listing` of the fetched page, and `[]` when the fetch fails. |
| Scraper.ListingSelects | prepare_floders.py:36-42 | The dishes are exactly the items that have both a title text and an href, in document order. Each is named by its stripped first text and linked as host + first href. |
| Seqs.FilterMapSelects | prepare_floders.py:36-42 | A filtered comprehension keeps, in order, exactly the elements it accepts. |
| Seqs.FilterMapExtremes | prepare_floders.py:60-61 | When every element is kept, nothing is dropped; when none is kept, the result is empty. |
| Scraper.ParagraphsSelect | prepare_floders.py:59-62 | The detail text is the `" "`-join, in paragraph order, of each paragraph's joined and stripped text, leaving out the paragraphs that strip to nothing. |
| Scraper.ParagraphText | prepare_floders.py:60-61 | One paragraph's text nodes joined and stripped, which the comprehension drops when empty. |
| Scraper.ParagraphTextTrimmed | prepare_floders.py:60-61 | A kept paragraph text is never empty and has no whitespace at either end. |
| Scraper.DetailText | prepare_floders.py:59-62 | The detail text is the kept paragraph texts joined by single spaces. Its properties are stated by `Scraper.ParagraphsSelect`, `Scraper.DetailTextTrimmed` and `Scraper.DetailTextEmpty`. |
| Scraper.DetailTextTrimmed | prepare_floders.py:60-62 | The detail text has no whitespace at either end. |
| Scraper.DetailTextEmpty | prepare_floders.py:60-62 | The detail text is empty exactly when every paragraph is blank. |
| PyStr.Join | prepare_floders.py:60-62 | `sep.join(parts)`: the parts in order with `sep` between neighbours. `PyStr.JoinEnds` states its properties. |
| PyStr.JoinEnds | prepare_floders.py:62 | A join of non-empty parts is empty only when there are no parts. It starts with the first part's first character and ends with the last part's last character. |
| Scraper.ImageName | prepare_floders.py:70 | The file name `picture{i}.jpg`. `Scraper.ImageNameShape` states its shape and `Scraper.ImageNameInjective` that it determines i. |
| Scraper.ImageNameShape | prepare_floders.py:70 | An image name starts with `picture`, ends with `.jpg` and is a relative name. |
| Scraper.ImagePath | prepare_floders.py:70 | `os.path.join(dir, f'picture{i}.jpg')`. `Scraper.ImagePathShape` states its shape. |
| Scraper.ImagePathShape | prepare_floders.py:70 | An image path starts with its directory and ends with the image name. |
| Scraper.ImagePaths | prepare_floders.py:65-73 | For n images the paths are `dir/picture1.jpg` … `dir/picture{n}.jpg`, in order. |
| Scraper.ImagePathsDistinct | prepare_floders.py:70 | The image paths of one dish are pairwise distinct. |
| Scraper.ImageNameInjective | prepare_floders.py:70 | Different image numbers give different file names. |
| PosixPath.Join | prepare_floders.py:70 | `os.path.join(a, b)`: an absolute `b` replaces `a`; otherwise `b` follows `a` after a `/` when `a` does not already end in one. `PosixPath.JoinRelative` and `PosixPath.JoinCancelLeft` state its properties. |
| PosixPath.JoinRelative | prepare_floders.py:70 | Joining a relative name appends it to the directory after at most one `/`. |
| PosixPath.JoinCancelLeft | prepare_floders.py:70 | Two relative names joined onto one directory give one path only if they are the same name. |
| Scraper.StoredRun | prepare_floders.py:67-73 | The images before the returned index were all saved, in order, and the image at that index (if any) failed. |
| Scraper.Detail | prepare_floders.py:50-79 | `detail_get`'s result. Any image paths it returns are exactly the files written on the way (`Saved`); otherwise it returns no paths. |
| Scraper.Saved | prepare_floders.py:65-73 | The files written on the way are `dir/picture1.jpg`, `dir/picture2.jpg`, … in order. Each was stored from its `src`. There are `StoredRun` of them, so the next image, if there is one, failed. None are written when the page or its content div is missing. |
| Scraper.DetailGet | prepare_floders.py:50-79 | `detail_get` returns `Detail`: the text and all image paths when the page, its content div and every image succeed. Otherwise it returns `("", [])`. It reports as `saved` the files written before the first failure. |
| Scraper.DetailAllOrNothing | prepare_floders.py:56-79 | All or nothing: a dish yields either no paths, or one saved path per image `src` together with its text. A missing page, a missing div or any failed image gives `("", [])`. A fetched page with a content div whose every image is stored gives its text and `picture1.jpg` … `picture{N}.jpg` for its N sources. |
| Harvest.UrlsCuisines | prepare_floders.py:118-122 | The two configured jobs: the Lu and Sichuan landing pages, both in category 菜系, labelled 鲁菜 and 川菜. What they imply is stated by `Harvest.ConfiguredPageUrls` and `Harvest.ConfiguredLabels`. |
| Harvest.PageUrl | prepare_floders.py:91 | Every page URL starts with the landing URL. It is the landing URL itself exactly for page 1 (and below). |
| PyStr.NatToString | prepare_floders.py:91 | `str(n)` as used in the f-strings at lines 70, 91 and 96: a non-empty string of decimal digits. `PyStr.NatToStringInjective` and `PyStr.ParseNatToString` state that it determines n. |
| Harvest.PageUrls | prepare_floders.py:90-91 | Pages 1 to `total_pages` are requested in increasing order, none when the count is below 1. Page 1 is the landing URL itself and page k > 1 is `{url}/index_{k}.html`. |
| Harvest.PageUrlsDistinct | prepare_floders.py:90-91 | Each page URL is requested once: the URLs are pairwise distinct. |
| Harvest.PageUrlInjective | prepare_floders.py:91 | Different page numbers give different URLs. |
| Harvest.ConfiguredPageUrls | prepare_floders.py:118-122 | With the configured landing URL, page 1 is the landing URL and page 2 has a doubled slash before `index_2.html`. |
| Harvest.FolderName | prepare_floders.py:96 | The folder name `菜名{index}_{name}`. `Harvest.FolderNameShape` states its shape. |
| Harvest.FolderNameShape | prepare_floders.py:96 | A folder name starts with `菜名` and ends with `_` and the dish name. |
| Harvest.CuisineDir | prepare_floders.py:96 | `os.path.join('./result', category, cuisine)`. `Harvest.CuisineDirShape` states its shape. |
| Harvest.CuisineDirShape | prepare_floders.py:96 | A relative cuisine name ends the path. When the category is relative too, the path starts with `./result`. |
| Harvest.FolderPath | prepare_floders.py:96 | A dish folder starts with its cuisine's folder and ends with `菜名{index}_{name}`. |
| Harvest.FolderPathShape | prepare_floders.py:96 | With plain category and cuisine names, the dish folder is `./result/{category}/{cuisine}/菜名{index}_{name}`. |
| Harvest.FolderPathSplit | prepare_floders.py:96 | Every dish folder of a cuisine is one shared prefix, then the index, `_` and the name. |
| Harvest.PageImagePathsDistinct | prepare_floders.py:94-96 | Two dishes at different positions of a page never share an image path, and neither do two images of one dish. |
| Harvest.DifferentIndicesDistinctPaths | prepare_floders.py:94-96 | Different folder indices give different image paths, whatever the dish names. |
| Harvest.RepeatedDishSharesImagePath | prepare_floders.py:94-96 | The index restarts per page: a dish with the same name at position 1 of pages 1 and 2 writes two rows with the same image path. |
| Harvest.RowsFor | prepare_floders.py:103-105 | One row `[text, path, cuisine]` per returned image path, in path order. |
| Harvest.DishRowsComplete | prepare_floders.py:99-105 | A dish that is fetched, has a content div and stores every image writes exactly N rows for its N image sources. Row k holds the text, the path of `picture{k+1}.jpg` and the cuisine. |
| Harvest.DishFirstRow | prepare_floders.py:100-105 | A dish whose images were all saved writes its first row with its `picture1.jpg` path. |
| Harvest.SingleDishPage | prepare_floders.py:94-105 | A page listing one dish writes exactly that dish's rows, under folder index 1. |
| Harvest.DishRows | prepare_floders.py:95-105 | The rows of the `index`-th dish of a page: `RowsFor` of what `detail_get` returns for its link and numbered folder. Every row has three columns and the cuisine as its label. |
| Harvest.DishesRows | prepare_floders.py:94-105 | Every row of a page has three columns and is labelled with the job's cuisine. |
| Harvest.PageRows | prepare_floders.py:91-105 | The rows of listing page `page`: `DishesRows` of the dishes `get_data` reads from its URL. Every row has three columns and the cuisine as its label. |
| Harvest.PagesRows | prepare_floders.py:90-105 | Every row of a job has three columns and is labelled with the job's cuisine. |
| Harvest.PagesRowsPrefix | prepare_floders.py:90-105 | Pages are written in order: the rows of the first m pages are a prefix of the rows of the first n. |
| Harvest.JobRows | prepare_floders.py:87-105 | The rows one job writes: those of pages 1 to the page count. Every one has three columns and the job's cuisine as label. |
| Harvest.PagesPauses | prepare_floders.py:90-107 | The number of five-second sleeps of pages 1 to n: one per dish listed on them. `Harvest.FetchAndProcess` is stated against it. |
| Harvest.WriteDishRows | prepare_floders.py:103-105 | The innermost loop appends `RowsFor(text, paths, label)` to the writer: one row per image path, in order. |
| Harvest.WriteDishes | prepare_floders.py:94-107 | The dish loop of one page appends exactly `DishesRows` of the page's dishes and sleeps once per dish. |
| Harvest.FetchAndProcess | prepare_floders.py:83-108 | The job appends exactly `JobRows` to the writer, page by page, dish by dish, image by image. It requests exactly `PageUrls` and sleeps once per listed dish. |
| Harvest.CsvWriter.WriteRow | prepare_floders.py:105 | Writing a row appends it and changes nothing else. |
| Harvest.AllRows | prepare_floders.py:124-129 | The rows of all jobs, job after job. Every one has three columns. |
| Harvest.Harvest | prepare_floders.py:112-129 | The manifest is the header row `["text", "img_path", "label"]` (line 116) followed by the rows of each job, job after job. |
| Harvest.AllRowsPrefix | prepare_floders.py:126-129 | Jobs are written in order: the rows of the first i jobs are a prefix of the rows of all jobs. |
| Harvest.AllRowsLabels | prepare_floders.py:103-127 | Every data row is labelled with the cuisine of one of the jobs. |
| Harvest.ConfiguredLabels | prepare_floders.py:118-122 | Every label in `main`'s manifest is 鲁菜 or 川菜. |
| PyDict.Get | multimodal_training.py:79 | A lookup fails exactly when no item has the key, and a found value belongs to an item with that key. |
| PyDict.GetOfItem | multimodal_training.py:79 | In a dict, looking up an item's key gives that item's value. |
| PyDict.Invert | multimodal_training.py:117-121 | The inverse's keys are exactly the dict's values. |
| PyDict.InvertLastWins | multimodal_training.py:118 | Each value maps back to the key of the last item holding it. |
| PyDict.InvertRoundTrip | multimodal_training.py:117-121 | With no two items sharing a value, `inv[d[k]] == k`. |
| PyDict.InvertRoundTripValues | multimodal_training.py:117-121 | In a dict, `d[inv[v]] == v` for every value. |
| PyDict.Unique | multimodal_training.py:139 | `unique()` returns every value of the column exactly once and nothing else. |
| PyDict.UniqueFirstOccurrence | multimodal_training.py:139 | `unique()` lists values in order of first occurrence. |
| PyDict.DistinctCardinality | multimodal_training.py:142 | A repetition-free sequence has as many elements as its set. |
| Training.Labels | multimodal_training.py:139 | The label column `df_train[label_field]`: one label per row, in row order. |
| PyDict.Enumerate | multimodal_training.py:139 | `enumerate(u)` pairs each element with its position, in order. |
| Training.LabelToId | multimodal_training.py:138-140 | `label_to_id` as the items `(label, i)` of `enumerate(unique())`. Its properties are stated by `Training.LabelIds`, `Training.LabelIdPosition` and `Training.LabelIdsFollowFirstOccurrence`. |
| Training.IdToLabel | multimodal_training.py:117-121 | `id_to_label` as `Invert` of `label_to_id`, as built at lines 117-121 and 141. `Training.IdToLabelInverts` states that it inverts the map. |
| Training.LabelIdPosition | multimodal_training.py:138-140 | A training label's id is its position among the distinct labels. |
| Training.LabelIds | multimodal_training.py:138-140 | `label_to_id` gives ids 0 to n-1. Exactly the training labels have ids, and different labels have different ids. |
| Training.LabelIdsFollowFirstOccurrence | multimodal_training.py:138-140 | A label that occurs earlier in the training data gets the smaller id. |
| Training.NumLabelsCountsDistinct | multimodal_training.py:142 | `num_labels` is the number of distinct training labels. |
| Training.IdToLabelInverts | multimodal_training.py:141 | `id_to_label`'s keys are exactly the ids 0 to n-1. `id_to_label[label_to_id[l]] == l` and `label_to_id[id_to_label[i]] == i`. |
| Training.PredictionLabels | multimodal_training.py:292 | One label per prediction, in order, `r[i] == id_to_label[preds[i]]`, exactly when every id is known. A missing inverse raises TypeError. Otherwise the error is KeyError on the first unknown id. |
| Training.TrainedPredictionsNameLabels | multimodal_training.py:292 | After training, every id from 0 to num_labels-1 is named: prediction succeeds and each label maps back to its id. |
| PyStr.LowerAscii | multimodal_training.py:45-49 | `str.lower()` on ASCII letters: same length, and each character is lower-cased by `LowerChar`. |
| Training.ImgSize | multimodal_training.py:45-51 | An image size is set only as 224 or 256. It is 224 exactly when the lower-cased type is "resnet", and 256 exactly when it is "albef". Every other type sets no size. |
| Training.ImgSizeIgnoresCase | multimodal_training.py:45-51 | Model type names that lower-case alike get the same image size. |
| Training.ImgSizeKnownModels | multimodal_training.py:45-51 | Examples: "resnet" and "ResNet" give 224, "albef" and "ALBEF" give 256, and "vit" and "" set no size. `Training.ImgSize` states the rule for every name. |
| Training.NewDataset | multimodal_training.py:41-75 | Building a dataset raises AttributeError exactly when an image model other than ResNet or ALBEF is named. Otherwise the dataset keeps its arguments. A text-only dataset has no image size, and an image dataset uses the size `ImgSize` chooses for its model type. |
| Training.GetItem | multimodal_training.py:77-98 | An item is served exactly for a row in range whose label the map knows. It carries the row's text and label id, and the row's image exactly when there is an image model. |
| Training.Len | multimodal_training.py:100-101 | The length is the number of rows. |
| Training.TrainingItemsRoundTrip | multimodal_training.py:77-79 | In the training dataset every row is served, and its label id is in range and names back the row's label. |
| Training.LoadError | multimodal_training.py:255-259 | Loading the rows in order, as the sequential DataLoader does, succeeds exactly when every row is served. Otherwise the error is that of the first row `__getitem__` refuses. |
| Training.LoadAgainstTrainedMap | multimodal_training.py:77-79 | A dataset over the trained `label_to_id` serves every row exactly when each row's label was seen in training. Otherwise loading stops with KeyError on the label of the first row whose label was not seen. |
| Training.ClassifierImageModel | multimodal_training.py:344-350 | "bert" has no image model, "bert_resnet" uses "resnet" and "albef" uses "albef". Any other name raises KeyError with that name. |
| Training.ClassifierDatasetsBuild | multimodal_training.py:344-350 | Every known classifier's dataset can be built (no AttributeError). Only "bert" is text only; the "bert_resnet" dataset uses 224-pixel images and the "albef" dataset 256-pixel images. |
| Training.VLClassifier.constructor | multimodal_training.py:105-121 | The classifier keeps the given label map, and its inverse is `Invert` of it, or None when no map is given. |
| Training.VLClassifier.Train | multimodal_training.py:138-157 | Training recomputes `label_to_id`, `id_to_label` and `num_labels` from the training labels, then builds the training dataset over them. |
| Training.VLClassifier.Predict | multimodal_training.py:236-294 | Prediction builds the test dataset over the trained `label_to_id`, then loads every test row in order. An error in either step is the result; otherwise the result is `PredictionLabels` of the classifier's inverse map. |
| Training.ClassifierTrainTest | multimodal_training.py:343-353 | An unknown classifier name raises KeyError. Otherwise, when every test label was seen in training, the predictions are named through the inverse of the map trained on the training labels. When some test label was not, the result is KeyError on the label of the first such test row. |

## Left out

- HTTP requests, `raise_for_status`, encoding detection and XPath evaluation are foreign calls. Their results are the inputs of `Scraper.Web`.
- The model assumes that one URL gives the same answer every time it is fetched within one run.
- Creating folders, writing image bytes and `time.sleep` are I/O and timing. A sleep is only counted (the `pauses` result of `Harvest.FetchAndProcess`), and a picture's file is the `stored` answer.
- A failing `os.makedirs` would propagate out of `fetch_and_process`. The model does not include it.
- The thread pool in `main` runs the jobs concurrently against one shared writer. The model runs them one after another, in submission order, which is one of the schedules.
- Rows of concurrently running jobs can interleave; the model does not capture that. Nor does it propagate an exception through `future.result()`.
- CSV quoting and the `utf-8-sig` encoding belong to the `csv` module and are not modelled. The manifest is its sequence of rows.
- Console messages (`print`) are left out.
- `PyStr.ParseInt`: does not accept non-ASCII Unicode decimal digits, which Python's `int` also accepts. Listing pages carry ASCII page numbers.
- `PyStr.NatToString`: does not model the 4300-digit limit of `str(n)`. The numbers it formats are page numbers up to a count `int()` accepted, and positions in a list, so they never come near that limit.
- `PyStr.LowerAscii`: lower-cases ASCII letters only. For comparison with "resnet" and "albef" this gives Python's answer, because the only non-ASCII characters that lower-case to ASCII letters are U+212A, which becomes 'k', and U+0130, which becomes 'i' followed by a combining dot.
- `os.path.join` is modelled for POSIX paths only.
- The tokenizer, the network (`create_model`), optimiser, scheduler, training and evaluation loops, `torch` devices, saving and loading (`save`, `from_pretrained`), `set_seed`, the classification report and the prediction CSV are left out. They are numeric code, library calls and file I/O. A prediction enters the model as the id the network's argmax produced.
- The ids the network predicts for the test rows are an input of `Training.VLClassifier.Predict`. The model does not tie their number to the number of test rows, and it loads the test rows one at a time rather than in batches.
- Image opening, RGBA conversion and the torchvision transforms in `__getitem__` are left out. An image item carries the image path instead of the tensor.
- Pandas specifics (values other than strings in the text or label column, `NaN`) are not modelled. `df.at` with an index outside the frame is the KeyError case.
- devidedata.py is not part of this model. It wraps scikit-learn's `train_test_split` and pandas CSV I/O.
