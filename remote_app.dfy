/** The remote-inference app: EXIF orientation correction of the displayed image,
    the upload sent to the prediction endpoint, and the page built from its reply. */
module RemoteApp {
  import opened Outcome
  import opened Species
  import GlobalApp

  /** `info`: this script's own copy of the facts table. */
  const Info: map<string, SpeciesRecord> := map[
    "Cupid's Shaving Brush" := SpeciesRecord(
      "Emilia sonchifolia",
      "Ketumbit Jantan",
      "My other name is 'lilac tasselflower'. I look very much like the Common Vernonia, but my flowers are longer and look like a vase!"),
    "Hairy Spurge" := SpeciesRecord(
      "Euphorbia hirta",
      "Ara Tanah (which means 'ground fig')",
      "I have medicinal properties - I can be used to treat gastrointestinal (tummy) issues, asthma and bronchitis (lung infection)!"),
    "Common Vernonia" := SpeciesRecord(
      "Vernonia cinerea",
      "Rumput Tahi Babi (which means 'Pig dung grass', ew!) / Rumput Sepagi (which means morning grass, that sounds better..)",
      "My other name is 'Little Ironweed' - my flowers change into white fluffy tufts! Huff and puff on these white tufts and help my seeds fly away!"),
    "Lalang" := SpeciesRecord(
      "Imperata cylindrica",
      "Lalang (which literally means 'weeds')!",
      "I can grow up to 180 centimeters tall (that's probably taller than your Dad)!"),
    "Prickly Lantana" := SpeciesRecord(
      "Lantana camara",
      "Bunga Tahi Ayam (which means 'chicken poop flower')",
      "I may look very pretty, and my berries may look yummy, but please don't eat my as I am poisonous!"),
    "Touch-me-not" := SpeciesRecord(
      "Mimosa pudica",
      "Malu-malu (which means 'shy')",
      "I am really shy, touch my leaves and watch them close up!"),
    "Morning Glory" := SpeciesRecord(
      "Ipomoea cairica",
      "None",
      "I'm a creeping plant, so you'll usually find me climbing up fences!"),
    "Common Spiderwort" := SpeciesRecord(
      "Commelina diffusa",
      "Rumput aur (which means 'golden grass')",
      "My leaves are rich in Vitamin C - early settlers in Australia consumed this plant to prevent scurvy (a disease caused by a lack of Vitamin C)"),
    "Coat Buttons" := SpeciesRecord(
      "Tridax procumbens",
      "Kanching Baju",
      "I can be used as rabbit food!"),
    "White Kyllinga" := SpeciesRecord(
      "Cyperus mindorensis",
      "None",
      "I grow via a long rhizome (underground horizontal stem), and a decoction of these rhizomes may be used to treat fever!")
  ]

  /** This script's table is the local app's table, key for key and field for field. */
  lemma InfoMatchesLocalTable()
    ensures Info == GlobalApp.Info
  {
  }

  // ---------------------------------------------------------------------------
  // Orientation correction (displayed image only)
  // ---------------------------------------------------------------------------

  /** One entry of PIL's `ExifTags.TAGS`: a numeric tag id and its name. */
  datatype ExifTag = ExifTag(id: int, name: string)

  const OrientationTagName := "Orientation"

  /** The image shown on the page: the decoded upload, possibly rotated (degrees,
      counter-clockwise, canvas expanded). Pixels are not modelled. */
  datatype PilImage = Opened(data: seq<bv8>) | Rotated(base: PilImage, angle: int)

  /** Value of the loop variable after `for orientation in TAGS.keys(): if ... break`:
      the first id named 'Orientation', else the last id, and unbound (None) when there are no keys. */
  function TagSearch(tags: seq<ExifTag>): (r: Option<int>)
    ensures r.None? <==> tags == []
    ensures r.Some? ==> exists i :: 0 <= i < |tags| && tags[i].id == r.value
  {
    if tags == [] then None
    else if tags[0].name == OrientationTagName || |tags| == 1 then Some(tags[0].id)
    else TagSearch(tags[1..])
  }

  /** The search stops at the first key whose name is 'Orientation'. */
  lemma {:induction false} TagSearchStopsAtFirstMatch(tags: seq<ExifTag>, k: nat)
    requires k < |tags| && tags[k].name == OrientationTagName
    requires forall j :: 0 <= j < k ==> tags[j].name != OrientationTagName
    ensures TagSearch(tags) == Some(tags[k].id)
  {
    if k > 0 {
      assert tags[0].name != OrientationTagName;
      TagSearchStopsAtFirstMatch(tags[1..], k - 1);
    }
  }

  /** Without a key named 'Orientation' the loop variable is left at the last key. */
  lemma {:induction false} TagSearchWithoutMatch(tags: seq<ExifTag>)
    requires tags != []
    requires forall j :: 0 <= j < |tags| ==> tags[j].name != OrientationTagName
    ensures TagSearch(tags) == Some(tags[|tags| - 1].id)
  {
    if |tags| > 1 {
      TagSearchWithoutMatch(tags[1..]);
    }
  }

  /** Lines 68-70: the `for ... break` search, leaving its result in the loop variable. */
  method FindOrientationTagId(tags: seq<ExifTag>) returns (orientation: Option<int>)
    ensures orientation == TagSearch(tags)
  {
    orientation := None;
    var i := 0;
    assert tags[i..] == tags;
    while i < |tags|
      invariant 0 <= i <= |tags|
      invariant i < |tags| ==> TagSearch(tags) == TagSearch(tags[i..])
      invariant i == |tags| ==> orientation == TagSearch(tags)
    {
      orientation := Some(tags[i].id);
      if tags[i].name == OrientationTagName {
        break;
      }
      if i + 1 < |tags| {
        assert tags[i..][1..] == tags[i + 1..];
      }
      i := i + 1;
    }
  }

  /** The rotation chosen for an orientation tag value: 3, 6 and 8 select 180, 270 and 90. */
  function RotationAngle(value: int): (r: Option<int>)
    ensures value == 3 ==> r == Some(180)
    ensures value == 6 ==> r == Some(270)
    ensures value == 8 ==> r == Some(90)
    ensures r.Some? <==> value in {3, 6, 8}
    ensures r.Some? ==> r.value in {90, 180, 270}
  {
    if value == 3 then Some(180)
    else if value == 6 then Some(270)
    else if value == 8 then Some(90)
    else None
  }

  /** Lines 74-79: three successive tests of the same tag value, each possibly rebinding
      the image; at most one of them fires. */
  method ApplyOrientation(img: PilImage, value: int) returns (out: PilImage)
    ensures value == 3 ==> out == Rotated(img, 180)
    ensures value == 6 ==> out == Rotated(img, 270)
    ensures value == 8 ==> out == Rotated(img, 90)
    ensures value !in {3, 6, 8} ==> out == img
    ensures RotationAngle(value).None? ==> out == img
    ensures RotationAngle(value).Some? ==> out == Rotated(img, RotationAngle(value).value)
  {
    out := img;
    if value == 3 {
      out := Rotated(out, 180);
    }
    if value == 6 {
      out := Rotated(out, 270);
    }
    if value == 8 {
      out := Rotated(out, 90);
    }
  }

  /** What lines 67-82 leave in `pil_img`, case by case in the source's evaluation order.
      `exif` is `_getexif()` as a map, None when the image has no EXIF data. */
  function CorrectedImage(img: PilImage, tags: seq<ExifTag>, exif: Option<map<int, int>>): (r: Result<PilImage>)
    // without EXIF data the AttributeError of line 72 is caught before line 74 runs
    ensures exif.None? ==> r == Success(img)
    // the only error that escapes is the unbound loop variable, and only when EXIF data is present
    ensures r.Failure? <==> exif.Some? && tags == []
    ensures r.Failure? ==> r.error == NameError
    // a missing tag is caught and leaves the image unrotated
    ensures exif.Some? && tags != [] && TagSearch(tags).value !in exif.value ==> r == Success(img)
    // the image changes only by the one rotation the tag value selects
    ensures r.Success? && r.value != img ==>
      && exif.Some? && tags != [] && TagSearch(tags).value in exif.value
      && r.value.Rotated? && r.value.base == img
      && RotationAngle(exif.value[TagSearch(tags).value]) == Some(r.value.angle)
    ensures (exif.Some? && tags != [] && TagSearch(tags).value in exif.value &&
             RotationAngle(exif.value[TagSearch(tags).value]).Some?) ==>
      r == Success(Rotated(img, RotationAngle(exif.value[TagSearch(tags).value]).value))
  {
    if exif.None? then Success(img)
    else if tags == [] then Failure(NameError)
    else
      var id := TagSearch(tags).value;
      if id !in exif.value then Success(img)
      else
        match RotationAngle(exif.value[id])
        case Some(angle) => Success(Rotated(img, angle))
        case None => Success(img)
  }

  /** Lines 67-82: the `try` block, with the tag search loop and the three successive tests. */
  method CorrectOrientation(img: PilImage, tags: seq<ExifTag>, exif: Option<map<int, int>>)
    returns (r: Result<PilImage>)
    ensures r == CorrectedImage(img, tags, exif)
  {
    var orientation := FindOrientationTagId(tags);
    if exif.None? {
      // `None.items()`: AttributeError, caught
      return Success(img);
    }
    if orientation.None? {
      // the loop variable was never bound: NameError, not caught
      return Failure(NameError);
    }
    if orientation.value !in exif.value {
      // KeyError, caught
      return Success(img);
    }
    var rotated := ApplyOrientation(img, exif.value[orientation.value]);
    return Success(rotated);
  }

  // ---------------------------------------------------------------------------
  // Upload, reply and page
  // ---------------------------------------------------------------------------

  const ApiUrl := "https://sgwildflowers-6vgyceft2q-as.a.run.app/predict"

  /** The multipart POST `requests.post(API_URL, files={'file': ('image.jpg', file_data)})`. */
  datatype Upload = Upload(url: string, field: string, fileName: string, content: seq<bv8>)

  /** Lines 89-96: the reply text is the label; its facts are shown, or an error
      message replaces them when the label is not a key of `info`. */
  function ResponsePage(prediction: string): (page: seq<Output>)
    ensures prediction in Info ==> page == [Header(prediction)] + FieldLines(Info[prediction])
    ensures prediction !in Info ==> page == [Header(prediction), ApiError(prediction)]
  {
    [Header(prediction)] +
      match Lookup(Info, prediction)
      case Success(rec) => FieldLines(rec)
      case Failure(_) => [ApiError(prediction)]
  }

  /** Everything the page does for one upload. */
  datatype Visit = Visit(shown: PilImage, sent: Upload, page: seq<Output>)

  /** Lines 61-96 for one uploaded file: correct the displayed image's orientation,
      send the original bytes, and show the page for `responseText`, the reply body. */
  method HandleUpload(fileData: seq<bv8>, tags: seq<ExifTag>, exif: Option<map<int, int>>, responseText: string)
    returns (r: Result<Visit>)
    ensures r.Failure? <==> exif.Some? && tags == []
    ensures r.Failure? ==> r == Failure(NameError)
    ensures r.Success? ==> Success(r.value.shown) == CorrectedImage(Opened(fileData), tags, exif)
    ensures r.Success? ==> r.value.sent == Upload(ApiUrl, "file", "image.jpg", fileData)
    ensures r.Success? ==> r.value.page == ResponsePage(responseText)
  {
    var pilImg := Opened(fileData);
    var corrected := CorrectOrientation(pilImg, tags, exif);
    if corrected.Failure? {
      return Failure(corrected.error);
    }
    var sent := Upload(ApiUrl, "file", "image.jpg", fileData);
    return Success(Visit(corrected.value, sent, ResponsePage(responseText)));
  }
}
