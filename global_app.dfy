/** The local-inference app: centre square crop and input shape, argmax over the
    model's scores, the class-index table and the species facts table. */
module GlobalApp {
  import opened Outcome
  import opened Species

  // ---------------------------------------------------------------------------
  // Preprocessing: centre square crop, resize, batch dimension
  // ---------------------------------------------------------------------------

  /** The side length the image is resized to. */
  const ModelInputSize: nat := 299
  /** RGB channels after `convert('RGB')`. */
  const RgbChannels: nat := 3

  /** A crop box `(left, top, right, bottom)` in pixel coordinates; offsets may be half pixels. */
  datatype Box = Box(left: real, top: real, right: real, bottom: real)

  /** The branch test `w/ht > 1`, with exact division (ZeroDivisionError on a zero height). */
  function IsWiderThanTall(w: nat, ht: nat): (r: Result<bool>)
    ensures r.Failure? <==> ht == 0
    ensures r.Failure? ==> r.error == ZeroDivisionError
    ensures r.Success? ==> (r.value <==> w > ht)
  {
    if ht == 0 then Failure(ZeroDivisionError)
    else
      var ratio := (w as real) / (ht as real);
      RatioAboveOne(w, ht);
      Success(ratio > 1.0)
  }

  /** For a positive height, `w/ht > 1` holds exactly when `w > ht`. */
  lemma RatioAboveOne(w: nat, ht: nat)
    requires ht > 0
    ensures (w as real) / (ht as real) > 1.0 <==> w > ht
  {
  }

  /** The crop box `preprocess_img` passes to `img.crop`. */
  function CropBox(w: nat, ht: nat): (r: Result<Box>)
    ensures r.Failure? <==> ht == 0
    ensures r.Failure? ==> r.error == ZeroDivisionError
    // a wider image keeps its full height and a centred square of width ht
    ensures r.Success? && w > ht ==>
      r.value.right - r.value.left == ht as real && r.value.top == 0.0 && r.value.bottom == ht as real
    // otherwise (square images too) it keeps its full width and a centred square of height w
    ensures r.Success? && ht >= w ==>
      r.value.bottom - r.value.top == w as real && r.value.left == 0.0 && r.value.right == w as real
  {
    var wider :- IsWiderThanTall(w, ht);
    if wider then
      var newW := ht;
      var left := ((w - newW) as real) / 2.0;
      Success(Box(left, 0.0, left + newW as real, ht as real))
    else
      var newHt := w;
      var top := ((ht - newHt) as real) / 2.0;
      Success(Box(0.0, top, w as real, top + newHt as real))
  }

  /** The crop is centred: as much is cut from one side as from the other. */
  lemma CropBoxCentred(w: nat, ht: nat)
    requires ht > 0
    ensures CropBox(w, ht).Success?
    ensures CropBox(w, ht).value.left == w as real - CropBox(w, ht).value.right
    ensures CropBox(w, ht).value.top == ht as real - CropBox(w, ht).value.bottom
  {
  }

  /** The crop lies inside the image and is a square of side min(w, ht). */
  lemma CropBoxInsideImage(w: nat, ht: nat)
    requires ht > 0
    ensures CropBox(w, ht).Success?
    ensures var b := CropBox(w, ht).value;
      && 0.0 <= b.left <= b.right <= w as real
      && 0.0 <= b.top <= b.bottom <= ht as real
      && b.right - b.left == b.bottom - b.top == (if w < ht then w else ht) as real
  {
  }

  /** A square image is cropped to itself. */
  lemma SquareCropIsIdentity(n: nat)
    requires n > 0
    ensures CropBox(n, n) == Success(Box(0.0, 0.0, n as real, n as real))
  {
  }

  /** Size `(width, height)` after `img.resize((299, 299), ...)`, whatever the input size. */
  function ResizedSize(width: real, height: real): (nat, nat)
  {
    (ModelInputSize, ModelInputSize)
  }

  /** Shape of `np.array(img)` for an RGB image: (height, width, channels). */
  function ArrayShape(size: (nat, nat)): seq<nat>
  {
    [size.1, size.0, RgbChannels]
  }

  /** Shape after `np.expand_dims(..., axis=0)`. */
  function ExpandDims0(shape: seq<nat>): seq<nat>
  {
    [1] + shape
  }

  /** What `preprocess_img` produces, as far as it is arithmetic: the crop box and the tensor shape. */
  datatype Preprocessed = Preprocessed(box: Box, shape: seq<nat>)

  /** `preprocess_img` on an image of the given size. */
  function PreprocessImg(w: nat, ht: nat): (r: Result<Preprocessed>)
    ensures r.Failure? <==> ht == 0
    ensures r.Success? ==> r.value.shape == [1, 299, 299, 3]
    ensures r.Success? ==> Success(r.value.box) == CropBox(w, ht)
  {
    var box :- CropBox(w, ht);
    var size := ResizedSize(box.right - box.left, box.bottom - box.top);
    Success(Preprocessed(box, ExpandDims0(ArrayShape(size))))
  }

  // ---------------------------------------------------------------------------
  // Prediction: argmax over the model's scores, class index to species name
  // ---------------------------------------------------------------------------

  /** Index of the first maximal element: numpy's argmax tie rule. */
  function FirstMaxIndex(s: seq<real>): (r: nat)
    requires |s| > 0
    ensures r < |s|
    ensures forall j :: 0 <= j < |s| ==> s[j] <= s[r]
    ensures forall j :: 0 <= j < r ==> s[j] < s[r]
  {
    if |s| == 1 then 0
    else
      var k := FirstMaxIndex(s[..|s| - 1]);
      if s[|s| - 1] > s[k] then |s| - 1 else k
  }

  /** `np.argmax(scores, axis=1)`: one index per row; an empty row raises ValueError. */
  function ArgmaxAxis1(scores: seq<seq<real>>): (r: Result<seq<nat>>)
    ensures r.Success? <==> forall i :: 0 <= i < |scores| ==> |scores[i]| > 0
    ensures r.Failure? ==> r.error == ValueError
    ensures r.Success? ==> |r.value| == |scores|
    ensures r.Success? ==> forall i :: 0 <= i < |scores| ==> IsFirstMax(scores[i], r.value[i])
  {
    if forall i :: 0 <= i < |scores| ==> |scores[i]| > 0 then Success(RowArgmaxes(scores))
    else Failure(ValueError)
  }

  /** The first maximal index of every row, in row order. */
  function RowArgmaxes(scores: seq<seq<real>>): (r: seq<nat>)
    requires forall i :: 0 <= i < |scores| ==> |scores[i]| > 0
    ensures |r| == |scores|
    ensures forall i :: 0 <= i < |scores| ==> IsFirstMax(scores[i], r[i])
  {
    if scores == [] then []
    else [FirstMaxIndex(scores[0])] + RowArgmaxes(scores[1..])
  }

  /** A batch of one non-empty row yields that row's first maximal index. */
  lemma SingleRowArgmax(row: seq<real>)
    requires |row| > 0
    ensures ArgmaxAxis1([row]) == Success([FirstMaxIndex(row)])
  {
    var batch := [row];
    assert batch[0] == row && batch[1..] == [];
    assert RowArgmaxes(batch[1..]) == [];
    assert RowArgmaxes(batch) == [FirstMaxIndex(row)];
  }

  /** `k` indexes a maximal element of `s` and no earlier element is as large. */
  ghost predicate IsFirstMax(s: seq<real>, k: nat)
  {
    && k < |s|
    && (forall j :: 0 <= j < |s| ==> s[j] <= s[k])
    && (forall j :: 0 <= j < k ==> s[j] < s[k])
  }

  /** `class_dict` of `interpret_results`. */
  const ClassDict: map<int, string> := map[
    0 := "Cupid's Shaving Brush",
    1 := "Hairy Spurge",
    2 := "Common Vernonia",
    3 := "Lalang",
    4 := "Prickly Lantana",
    5 := "Touch-me-not",
    6 := "Morning Glory",
    7 := "Common Spiderwort",
    8 := "Coat Buttons",
    9 := "White Kyllinga"
  ]

  /** The class table is defined exactly on 0..9. */
  lemma ClassDictDomain()
    ensures forall i :: i in ClassDict <==> 0 <= i <= 9
  {
  }

  /** `interpret_results(result)`: `class_dict[result[0]]`. */
  function InterpretResults(result: seq<int>): (r: Result<string>)
    ensures r.Success? <==> |result| > 0 && 0 <= result[0] <= 9
    ensures |result| == 0 ==> r == Failure(IndexError)
    ensures |result| > 0 && !(0 <= result[0] <= 9) ==> r == Failure(KeyError)
    ensures r.Success? ==> result[0] in ClassDict && r.value == ClassDict[result[0]]
  {
    if |result| == 0 then Failure(IndexError)
    else if result[0] in ClassDict then Success(ClassDict[result[0]])
    else Failure(KeyError)
  }

  /** The ten class names are pairwise distinct. */
  lemma ClassNamesDistinct()
    ensures forall i, j :: i in ClassDict && j in ClassDict && i != j ==> ClassDict[i] != ClassDict[j]
  {
  }

  // ---------------------------------------------------------------------------
  // Species facts and the local result page
  // ---------------------------------------------------------------------------

  /** `info`: species display name to its facts. */
  const Info: map<string, SpeciesRecord> := map[
    "Cupid's Shaving Brush" := SpeciesRecord(
      "Emilia sonchifolia",
      "Ketumbit Jantan",
      "My other name is 'lilac tasselflower'. I look very much like the Common Vernonia, but my flowers are longer and look like a vase!"),
    "Hairy Spurge" := SpeciesRecord(
      "Euphorbia hirta",
      "Ara Tanah (which means 'ground fig')",
      "I have medicinal properties - I can be used to treat gastrointestinal (tummy) issues, asthma and bronchitis (lung infection)!"),
    "Common Vernonia" := SpeciesRecord(
      "Vernonia cinerea",
      "Rumput Tahi Babi (which means 'Pig dung grass', ew!) / Rumput Sepagi (which means morning grass, that sounds better..)",
      "My other name is 'Little Ironweed' - my flowers change into white fluffy tufts! Huff and puff on these white tufts and help my seeds fly away!"),
    "Lalang" := SpeciesRecord(
      "Imperata cylindrica",
      "Lalang (which literally means 'weeds')!",
      "I can grow up to 180 centimeters tall (that's probably taller than your Dad)!"),
    "Prickly Lantana" := SpeciesRecord(
      "Lantana camara",
      "Bunga Tahi Ayam (which means 'chicken poop flower')",
      "I may look very pretty, and my berries may look yummy, but please don't eat my as I am poisonous!"),
    "Touch-me-not" := SpeciesRecord(
      "Mimosa pudica",
      "Malu-malu (which means 'shy')",
      "I am really shy, touch my leaves and watch them close up!"),
    "Morning Glory" := SpeciesRecord(
      "Ipomoea cairica",
      "None",
      "I'm a creeping plant, so you'll usually find me climbing up fences!"),
    "Common Spiderwort" := SpeciesRecord(
      "Commelina diffusa",
      "Rumput aur (which means 'golden grass')",
      "My leaves are rich in Vitamin C - early settlers in Australia consumed this plant to prevent scurvy (a disease caused by a lack of Vitamin C)"),
    "Coat Buttons" := SpeciesRecord(
      "Tridax procumbens",
      "Kanching Baju",
      "I can be used as rabbit food!"),
    "White Kyllinga" := SpeciesRecord(
      "Cyperus mindorensis",
      "None",
      "I grow via a long rhizome (underground horizontal stem), and a decoction of these rhizomes may be used to treat fever!")
  ]

  /** Every facts record has a non-empty scientific name and fun fact. */
  lemma FactsNonEmpty()
    ensures forall name :: name in Info ==> Info[name].scientificName != [] && Info[name].funFact != []
  {
  }

  /** The class table and the facts table name the same ten species. */
  lemma ClassNamesAreInfoKeys()
    ensures ClassDict.Values == Info.Keys
  {
    forall i | i in ClassDict
      ensures ClassDict[i] in Info
    {
    }
    var names := {ClassDict[0], ClassDict[1], ClassDict[2], ClassDict[3], ClassDict[4],
                  ClassDict[5], ClassDict[6], ClassDict[7], ClassDict[8], ClassDict[9]};
    assert Info.Keys == names;
  }

  /** Every name `interpret_results` returns is a key of `info`. */
  lemma InterpretedNameHasFacts(result: seq<int>)
    ensures InterpretResults(result).Success? ==> InterpretResults(result).value in Info
  {
  }

  /** Lines 131-139: argmax, class name, header and the three facts; no guard on `info[prediction]`. */
  function LocalPage(scores: seq<seq<real>>): (r: Result<seq<Output>>)
    ensures r.Success? ==> |r.value| == 4 && r.value[0].Header?
    ensures r.Success? ==> var name := r.value[0].prediction;
      name in ClassDict.Values && name in Info && r.value[1..] == FieldLines(Info[name])
    // the name shown is the class of the first maximal score of the first row
    ensures r.Success? ==>
      && ArgmaxAxis1(scores).Success?
      && InterpretResults(ArgmaxAxis1(scores).value) == Success(r.value[0].prediction)
  {
    var result :- ArgmaxAxis1(scores);
    var prediction :- InterpretResults(result);
    var rec :- Lookup(Info, prediction);
    Success([Header(prediction)] + FieldLines(rec))
  }

  /** Once the class name is known the local page shows its facts: the unguarded
      `info[prediction]` lookups cannot fail. */
  lemma LocalPageOfPrediction(scores: seq<seq<real>>, result: seq<nat>, name: string)
    requires ArgmaxAxis1(scores) == Success(result)
    requires InterpretResults(result) == Success(name)
    ensures name in Info
    ensures LocalPage(scores) == Success([Header(name)] + FieldLines(Info[name]))
  {
  }

  /** For the model's single row of ten scores the page never fails: it names the
      class of the first maximal score and shows that species' facts. */
  lemma LocalPageForModelOutput(row: seq<real>)
    requires |row| == 10
    ensures FirstMaxIndex(row) in ClassDict
    ensures var name := ClassDict[FirstMaxIndex(row)];
      && name in Info
      && LocalPage([row]) == Success([Header(name)] + FieldLines(Info[name]))
  {
    var k := FirstMaxIndex(row);
    SingleRowArgmax(row);
    ClassDictDomain();
    LocalPageOfPrediction([row], [k], ClassDict[k]);
  }
}
