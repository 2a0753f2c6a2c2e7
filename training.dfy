/**
 * The label bookkeeping of the vision-and-language classifier: the label-to-id map built when
 * training, its inverse used to name predictions, the image size chosen from the image model
 * type, the items the dataset hands out, and the classifier-name to image-model table.
 * Tensors, images, the network and its training loop are not modelled; a prediction is the
 * class id the network's argmax produced, given as input.
 */
module Training {
  import opened Wrappers
  import opened PyStr
  import opened PyDict

  /** The key a failed dict lookup or `df.at` reports. */
  datatype Key = Text(s: string) | Int(i: int)

  /** The exceptions the modelled code raises. */
  datatype PyError =
    | KeyError(key: Key)     // a missing dict key or dataframe row
    | TypeError              // subscripting `None`
    | AttributeError         // reading `img_size` that was never set

  // ---------------------------------------------------------------- labels

  /** `{lab: i for i, lab in enumerate(df_train[label_field].unique())}`. */
  function LabelToId(labels: seq<string>): Items<string, int>
  {
    Enumerate(Unique(labels))
  }

  /** `{v: k for k, v in label_to_id.items()}`. */
  function IdToLabel(labelToId: Items<string, int>): map<int, string>
  {
    Invert(labelToId)
  }

  /** A training label's id is its position among the distinct labels. */
  lemma LabelIdPosition(labels: seq<string>, l: string)
    requires l in labels
    ensures Get(LabelToId(labels), l).Some?
    ensures 0 <= Get(LabelToId(labels), l).value < |LabelToId(labels)|
    ensures Unique(labels)[Get(LabelToId(labels), l).value] == l
  {
    var u := Unique(labels);
    var i :| 0 <= i < |u| && u[i] == l;
    GetOfItem(LabelToId(labels), i);
  }

  /** The ids of `label_to_id` are 0 to n-1, one per distinct training label: every training
      label and nothing else has an id, and different labels get different ids. */
  lemma LabelIds(labels: seq<string>)
    ensures DistinctKeys(LabelToId(labels))
    ensures forall i :: 0 <= i < |LabelToId(labels)| ==> LabelToId(labels)[i].1 == i
    ensures forall l :: Get(LabelToId(labels), l).Some? <==> l in labels
    ensures forall l :: l in labels ==> 0 <= Get(LabelToId(labels), l).value < |LabelToId(labels)|
    ensures forall l1, l2 :: l1 in labels && l2 in labels && l1 != l2 ==>
              Get(LabelToId(labels), l1) != Get(LabelToId(labels), l2)
  {
    forall l | l in labels ensures Get(LabelToId(labels), l).Some? && Get(LabelToId(labels), l).value < |LabelToId(labels)| {
      LabelIdPosition(labels, l);
    }
    forall l1, l2 | l1 in labels && l2 in labels && l1 != l2
      ensures Get(LabelToId(labels), l1) != Get(LabelToId(labels), l2)
    {
      LabelIdPosition(labels, l1);
      LabelIdPosition(labels, l2);
    }
  }

  /** Ids are handed out in order of first occurrence: a label seen earlier in the training
      data gets the smaller id. */
  lemma LabelIdsFollowFirstOccurrence(labels: seq<string>, l1: string, l2: string)
    requires l1 in labels && l2 in labels
    ensures Get(LabelToId(labels), l1).value < Get(LabelToId(labels), l2).value <==>
            FirstIndex(labels, l1) < FirstIndex(labels, l2)
  {
    var u := Unique(labels);
    LabelIdPosition(labels, l1);
    LabelIdPosition(labels, l2);
    UniqueFirstOccurrence(labels);
    var i, j := Get(LabelToId(labels), l1).value, Get(LabelToId(labels), l2).value;
    if i > j {
      assert FirstIndex(labels, u[j]) < FirstIndex(labels, u[i]);
    }
  }

  /** `num_labels = len(label_to_id)` is the number of distinct training labels. */
  lemma NumLabelsCountsDistinct(labels: seq<string>)
    ensures |LabelToId(labels)| == |set l | l in labels|
  {
    var u := Unique(labels);
    DistinctCardinality(u);
    assert (set l | l in u) == (set l | l in labels);
  }

  /** `id_to_label` inverts `label_to_id` both ways: its keys are the ids 0 to n-1,
      `id_to_label[label_to_id[l]] == l` for every label and `label_to_id[id_to_label[i]] == i`
      for every id. */
  lemma IdToLabelInverts(labels: seq<string>)
    ensures forall i :: i in IdToLabel(LabelToId(labels)) <==> 0 <= i < |LabelToId(labels)|
    ensures forall l :: l in labels ==>
              Get(LabelToId(labels), l).value in IdToLabel(LabelToId(labels)) &&
              IdToLabel(LabelToId(labels))[Get(LabelToId(labels), l).value] == l
    ensures forall i :: i in IdToLabel(LabelToId(labels)) ==>
              Get(LabelToId(labels), IdToLabel(LabelToId(labels))[i]) == Some(i)
  {
    var d := LabelToId(labels);
    LabelIds(labels);
    forall i | 0 <= i < |d| ensures i in Invert(d) {
      assert d[i].1 == i;
    }
    forall l | l in labels ensures Get(d, l).value in Invert(d) && Invert(d)[Get(d, l).value] == l {
      InvertRoundTrip(d, l);
    }
    forall i | i in Invert(d) ensures Get(d, Invert(d)[i]) == Some(i) {
      InvertRoundTripValues(d, i);
    }
  }

  // ---------------------------------------------------------------- predictions

  /** `[self.id_to_label[p] for p in prediction_results]`: the label of each predicted id, in
      order. Subscripting a missing `id_to_label` raises TypeError, an unknown id KeyError; the
      first failing prediction decides the error. */
  function PredictionLabels(idToLabel: Option<map<int, string>>, preds: seq<int>): (r: Result<seq<string>, PyError>)
    ensures r.Ok? <==> preds == [] || (idToLabel.Some? && forall i :: 0 <= i < |preds| ==> preds[i] in idToLabel.value)
    ensures r.Ok? ==> |r.value| == |preds| && forall i :: 0 <= i < |preds| ==> r.value[i] == idToLabel.value[preds[i]]
    ensures r.Err? && idToLabel.None? ==> r.error == TypeError
    ensures r.Err? && idToLabel.Some? ==>
              exists k :: 0 <= k < |preds| && r.error == KeyError(Int(preds[k])) && preds[k] !in idToLabel.value &&
                          forall j :: 0 <= j < k ==> preds[j] in idToLabel.value
  {
    if preds == [] then Ok([])
    else
      var init := preds[..|preds| - 1];
      var p := preds[|preds| - 1];
      assert forall i :: 0 <= i < |init| ==> init[i] == preds[i];
      match PredictionLabels(idToLabel, init)
      case Err(e) => Err(e)
      case Ok(names) =>
        match idToLabel
        case None => Err(TypeError)
        case Some(m) => if p in m then Ok(names + [m[p]]) else Err(KeyError(Int(p)))
  }

  /** After training, every id the network can produce (0 to num_labels-1) names a training
      label, and that label maps back to the id: predicting never raises. */
  lemma TrainedPredictionsNameLabels(labels: seq<string>, preds: seq<int>)
    requires forall i :: 0 <= i < |preds| ==> 0 <= preds[i] < |LabelToId(labels)|
    ensures var r := PredictionLabels(Some(IdToLabel(LabelToId(labels))), preds);
            && r.Ok?
            && forall i :: 0 <= i < |preds| ==> r.value[i] in labels && Get(LabelToId(labels), r.value[i]) == Some(preds[i])
  {
    IdToLabelInverts(labels);
    LabelIds(labels);
    var d := LabelToId(labels);
    var r := PredictionLabels(Some(IdToLabel(d)), preds);
    forall i | 0 <= i < |preds| ensures r.value[i] in labels {
      var l := IdToLabel(d)[preds[i]];
      assert Get(d, l).Some?;
    }
  }

  // ---------------------------------------------------------------- images

  /** The image size for an image model type: 224 for ResNet-50, 256 for ALBEF, the type's name
      compared without regard to case; `None` when neither branch sets `img_size`. */
  function ImgSize(imageModelType: string): (r: Option<int>)
    ensures r.Some? ==> r.value == 224 || r.value == 256
    ensures r == Some(224) <==> LowerAscii(imageModelType) == "resnet"
    ensures r == Some(256) <==> LowerAscii(imageModelType) == "albef"
    ensures r.None? <==> LowerAscii(imageModelType) != "resnet" && LowerAscii(imageModelType) != "albef"
  {
    var t := LowerAscii(imageModelType);
    if t == "resnet" then Some(224)
    else if t == "albef" then Some(256)
    else None
  }

  /** The choice ignores case: names that lower-case alike get the same size. */
  lemma ImgSizeIgnoresCase(a: string, b: string)
    requires LowerAscii(a) == LowerAscii(b)
    ensures ImgSize(a) == ImgSize(b)
  {
  }

  /** The two known models get their sizes whatever their capitalisation; other names get none. */
  lemma ImgSizeKnownModels()
    ensures ImgSize("resnet") == Some(224) && ImgSize("ResNet") == Some(224)
    ensures ImgSize("albef") == Some(256) && ImgSize("ALBEF") == Some(256)
    ensures ImgSize("vit") == None && ImgSize("") == None
  {
    assert LowerAscii("ResNet") == "resnet";
    assert LowerAscii("ALBEF") == "albef";
  }

  // ---------------------------------------------------------------- the dataset

  /** One dataframe row as the dataset reads it: text, label and image path columns. */
  datatype DatasetRow = DatasetRow(text: string, tag: string, imgPath: string)

  /** The label column of a dataframe. */
  function Labels(rows: seq<DatasetRow>): (r: seq<string>)
    ensures |r| == |rows| && forall i :: 0 <= i < |rows| ==> r[i] == rows[i].tag
  {
    seq(|rows|, i requires 0 <= i < |rows| => rows[i].tag)
  }

  /** A `VLDataset`: its rows, the label map it was given, whether it serves training, the
      image model type, and the image size its transforms use when there is an image model. */
  datatype VLDataset = VLDataset(
    rows: seq<DatasetRow>,
    labelToId: Option<Items<string, int>>,
    train: bool,
    imageModelType: Option<string>,
    imgSize: Option<int>)

  /** `VLDataset(...)`: without an image model the dataset is text only; with one, building the
      image transforms reads `img_size`, which raises AttributeError unless the type is ResNet or ALBEF. */
  function NewDataset(rows: seq<DatasetRow>, labelToId: Option<Items<string, int>>, train: bool,
                      imageModelType: Option<string>): (r: Result<VLDataset, PyError>)
    ensures r.Err? <==> imageModelType.Some? && ImgSize(imageModelType.value).None?
    ensures r.Ok? ==> r.value.rows == rows && r.value.labelToId == labelToId && r.value.train == train
                      && r.value.imageModelType == imageModelType
                      && (r.value.imgSize.Some? <==> imageModelType.Some?)
    ensures r.Ok? && imageModelType.Some? ==> r.value.imgSize == ImgSize(imageModelType.value)
  {
    match imageModelType
    case None => Ok(VLDataset(rows, labelToId, train, None, None))
    case Some(t) =>
      match ImgSize(t)
      case None => Err(AttributeError)
      case Some(size) => Ok(VLDataset(rows, labelToId, train, imageModelType, Some(size)))
  }

  /** What `__getitem__` returns: `(text, label)` for a text-only dataset, `(text, label, img)`
      with an image model; the image is named by its path. */
  datatype Item =
    | TextItem(text: string, labelId: int)
    | ImageItem(text: string, labelId: int, imgPath: string)

  /** `__getitem__(index)`: the row's text and label id, and its image when there is an image
      model. A row index outside the dataframe raises KeyError, a missing label map TypeError,
      a label the map does not know KeyError. */
  function GetItem(ds: VLDataset, index: int): (r: Result<Item, PyError>)
    ensures r.Ok? <==> 0 <= index < |ds.rows| && ds.labelToId.Some? && Get(ds.labelToId.value, ds.rows[index].tag).Some?
    ensures r.Ok? ==> r.value.text == ds.rows[index].text
                      && r.value.labelId == Get(ds.labelToId.value, ds.rows[index].tag).value
                      && (r.value.ImageItem? <==> ds.imageModelType.Some?)
                      && (r.value.ImageItem? ==> r.value.imgPath == ds.rows[index].imgPath)
  {
    if !(0 <= index < |ds.rows|) then Err(KeyError(Int(index)))
    else
      var row := ds.rows[index];
      match ds.labelToId
      case None => Err(TypeError)
      case Some(m) =>
        match Get(m, row.tag)
        case None => Err(KeyError(Text(row.tag)))
        case Some(id) =>
          if ds.imageModelType.Some? then Ok(ImageItem(row.text, id, row.imgPath))
          else Ok(TextItem(row.text, id))
  }

  /** `__len__`: the number of rows. */
  function Len(ds: VLDataset): (n: nat)
    ensures n == |ds.rows|
  {
    |ds.rows|
  }

  /** The dataset built for training serves every one of its rows: the item's label id is in
      0 to num_labels-1 and `id_to_label` turns it back into the row's label. */
  lemma TrainingItemsRoundTrip(ds: VLDataset, index: int)
    requires ds.labelToId == Some(LabelToId(Labels(ds.rows)))
    requires 0 <= index < Len(ds)
    ensures GetItem(ds, index).Ok?
    ensures 0 <= GetItem(ds, index).value.labelId < |LabelToId(Labels(ds.rows))|
    ensures IdToLabel(LabelToId(Labels(ds.rows)))[GetItem(ds, index).value.labelId] == ds.rows[index].tag
  {
    var labels := Labels(ds.rows);
    assert labels[index] == ds.rows[index].tag;
    LabelIds(labels);
    IdToLabelInverts(labels);
  }

  /** Loading rows `from` to the end, in order, as the sequential DataLoader does: the error of
      the first row `__getitem__` refuses, or `None` when every row is served. */
  function LoadError(ds: VLDataset, from: nat): (r: Option<PyError>)
    ensures r.None? <==> forall k :: from <= k < |ds.rows| ==> GetItem(ds, k).Ok?
    ensures r.Some? ==> exists k :: from <= k < |ds.rows| && GetItem(ds, k) == Err(r.value) &&
                                    forall j :: from <= j < k ==> GetItem(ds, j).Ok?
    decreases |ds.rows| - from
  {
    if from >= |ds.rows| then None
    else
      match GetItem(ds, from)
      case Err(e) => Some(e)
      case Ok(_) => LoadError(ds, from + 1)
  }

  /** A dataset over the trained label map serves every row whose label was seen in training;
      the first row with an unseen label stops loading with KeyError on that label. */
  lemma LoadAgainstTrainedMap(trainRows: seq<DatasetRow>, ds: VLDataset)
    requires ds.labelToId == Some(LabelToId(Labels(trainRows)))
    ensures LoadError(ds, 0).None? <==> forall k :: 0 <= k < |ds.rows| ==> ds.rows[k].tag in Labels(trainRows)
    ensures LoadError(ds, 0).Some? ==>
              exists k :: 0 <= k < |ds.rows| && LoadError(ds, 0) == Some(KeyError(Text(ds.rows[k].tag))) &&
                          ds.rows[k].tag !in Labels(trainRows) &&
                          forall j :: 0 <= j < k ==> ds.rows[j].tag in Labels(trainRows)
  {
    var labels := Labels(trainRows);
    LabelIds(labels);
    forall k | 0 <= k < |ds.rows|
      ensures GetItem(ds, k).Ok? <==> ds.rows[k].tag in labels
      ensures GetItem(ds, k).Err? ==> GetItem(ds, k) == Err(KeyError(Text(ds.rows[k].tag)))
    {
    }
    if LoadError(ds, 0).Some? {
      var k :| 0 <= k < |ds.rows| && GetItem(ds, k) == Err(LoadError(ds, 0).value) &&
               forall j :: 0 <= j < k ==> GetItem(ds, j).Ok?;
      assert ds.rows[k].tag !in labels;
    }
  }

  // ---------------------------------------------------------------- the classifier

  /** `classifier_to_image_model_map[classifier_type]`: no image model for "bert", ResNet for
      "bert_resnet", ALBEF for "albef"; any other name raises KeyError. */
  function ClassifierImageModel(classifierType: string): (r: Result<Option<string>, PyError>)
    ensures r.Err? <==> classifierType !in {"bert", "bert_resnet", "albef"}
    ensures r.Err? ==> r.error == KeyError(Text(classifierType))
    ensures classifierType == "bert" ==> r == Ok(None)
    ensures classifierType == "bert_resnet" ==> r == Ok(Some("resnet"))
    ensures classifierType == "albef" ==> r == Ok(Some("albef"))
  {
    if classifierType == "bert" then Ok(None)
    else if classifierType == "bert_resnet" then Ok(Some("resnet"))
    else if classifierType == "albef" then Ok(Some("albef"))
    else Err(KeyError(Text(classifierType)))
  }

  /** Every classifier the table knows gets an image model whose dataset can be built: the
      image size is always set, so no AttributeError follows. "bert" is text only, the
      "bert_resnet" dataset uses 224-pixel images and the "albef" one 256-pixel images. */
  lemma ClassifierDatasetsBuild(classifierType: string, rows: seq<DatasetRow>, labelToId: Option<Items<string, int>>, train: bool)
    requires ClassifierImageModel(classifierType).Ok?
    ensures NewDataset(rows, labelToId, train, ClassifierImageModel(classifierType).value).Ok?
    ensures ClassifierImageModel(classifierType).value.None? <==> classifierType == "bert"
    ensures NewDataset(rows, labelToId, train, ClassifierImageModel(classifierType).value).value.imgSize ==
            if classifierType == "bert" then None
            else if classifierType == "bert_resnet" then Some(224)
            else Some(256)
  {
    assert LowerAscii("resnet") == "resnet";
    assert LowerAscii("albef") == "albef";
  }

  /** `VLClassifier`: the image model type and the label maps; `numLabels` is set by training. */
  class VLClassifier {
    var imageModelType: Option<string>
    var labelToId: Option<Items<string, int>>
    var idToLabel: Option<map<int, string>>
    var numLabels: Option<nat>

    /** `__init__`: keeps the label map it is given and inverts it; no map, no inverse. */
    constructor (imageModelType: Option<string>, labelMap: Option<Items<string, int>>)
      ensures this.imageModelType == imageModelType && labelToId == labelMap
      ensures idToLabel == if labelMap.Some? then Some(IdToLabel(labelMap.value)) else None
      ensures numLabels == None
    {
      this.imageModelType := imageModelType;
      labelToId := labelMap;
      idToLabel := if labelMap.Some? then Some(IdToLabel(labelMap.value)) else None;
      numLabels := None;
    }

    /** `train`, up to building the training dataset: the label maps and `num_labels` are
      recomputed from the training rows, then the dataset is built over them. */
    method Train(rows: seq<DatasetRow>) returns (ds: Result<VLDataset, PyError>)
      modifies this
      ensures labelToId == Some(LabelToId(Labels(rows)))
      ensures idToLabel == Some(IdToLabel(LabelToId(Labels(rows))))
      ensures numLabels == Some(|LabelToId(Labels(rows))|)
      ensures imageModelType == old(imageModelType)
      ensures ds == NewDataset(rows, labelToId, true, imageModelType)
    {
      var m := LabelToId(Labels(rows));
      labelToId := Some(m);
      idToLabel := Some(IdToLabel(m));
      numLabels := Some(|m|);
      ds := NewDataset(rows, labelToId, true, imageModelType);
    }

    /** `predict`, from the test rows and the ids the network produced for them: build the test
        dataset over the trained label map, load every row in order, then name the ids through
        `id_to_label`. The first exception on the way is the result. */
    method Predict(testRows: seq<DatasetRow>, preds: seq<int>) returns (r: Result<seq<string>, PyError>)
      ensures NewDataset(testRows, labelToId, false, imageModelType).Err? ==>
                r == Err(NewDataset(testRows, labelToId, false, imageModelType).error)
      ensures NewDataset(testRows, labelToId, false, imageModelType).Ok? &&
              LoadError(NewDataset(testRows, labelToId, false, imageModelType).value, 0).Some? ==>
                r == Err(LoadError(NewDataset(testRows, labelToId, false, imageModelType).value, 0).value)
      ensures NewDataset(testRows, labelToId, false, imageModelType).Ok? &&
              LoadError(NewDataset(testRows, labelToId, false, imageModelType).value, 0).None? ==>
                r == PredictionLabels(idToLabel, preds)
    {
      var built := NewDataset(testRows, labelToId, false, imageModelType);
      if built.Err? {
        return Err(built.error);
      }
      var ds := built.value;
      var i := 0;
      while i < |ds.rows|
        invariant 0 <= i <= |ds.rows|
        invariant LoadError(ds, 0) == LoadError(ds, i)
      {
        var item := GetItem(ds, i);
        if item.Err? {
          return Err(item.error);
        }
        i := i + 1;
      }
      r := PredictionLabels(idToLabel, preds);
    }
  }

  /** `classifier_train_test`, up to the predictions: look the classifier up, build it without a
      label map, train it on the training rows and predict the test rows. Predicting succeeds
      exactly when every test label was seen in training; otherwise the first test row with an
      unseen label raises KeyError on that label. */
  method ClassifierTrainTest(classifierType: string, trainRows: seq<DatasetRow>, testRows: seq<DatasetRow>, preds: seq<int>)
    returns (r: Result<seq<string>, PyError>)
    ensures ClassifierImageModel(classifierType).Err? ==> r == Err(KeyError(Text(classifierType)))
    ensures ClassifierImageModel(classifierType).Ok? &&
            (forall k :: 0 <= k < |testRows| ==> testRows[k].tag in Labels(trainRows)) ==>
              r == PredictionLabels(Some(IdToLabel(LabelToId(Labels(trainRows)))), preds)
    ensures ClassifierImageModel(classifierType).Ok? &&
            !(forall k :: 0 <= k < |testRows| ==> testRows[k].tag in Labels(trainRows)) ==>
              exists k :: 0 <= k < |testRows| && r == Err(KeyError(Text(testRows[k].tag))) &&
                          testRows[k].tag !in Labels(trainRows) &&
                          forall j :: 0 <= j < k ==> testRows[j].tag in Labels(trainRows)
  {
    var imageModel := ClassifierImageModel(classifierType);
    if imageModel.Err? {
      return Err(imageModel.error);
    }
    var classifier := new VLClassifier(imageModel.value, None);
    var ds := classifier.Train(trainRows);
    ClassifierDatasetsBuild(classifierType, testRows, classifier.labelToId, false);
    LoadAgainstTrainedMap(trainRows, NewDataset(testRows, classifier.labelToId, false, classifier.imageModelType).value);
    r := classifier.Predict(testRows, preds);
  }
}
