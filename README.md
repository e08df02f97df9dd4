# Wildflower classifier front-end: a Dafny model

This project models the logic of the two Streamlit scripts of the wildflower app.
It does not model the UI, the neural network or the HTTP transport, which are left out.

- `wildflowers/streamlit_app_global.py` is the local-inference app. Its modelled parts are:
  - the centre square crop that `preprocess_img` computes before resizing to 299×299;
  - the shape of the model input, (1, 299, 299, 3);
  - numpy's argmax over the model's scores, which returns the first maximal index;
  - the ten-entry `class_dict` of `interpret_results`;
  - the `info` facts table;
  - the result page.
- `wildflowers/sgwildflowers_st.py` is the remote-inference app. Its modelled parts are:
  - the search through PIL's EXIF tag table for the `Orientation` tag id;
  - the dispatch from the orientation value to a rotation angle, and the fall-through when EXIF data is missing;
  - the multipart upload of the original bytes;
  - the page built from the reply text. An unknown label becomes an error line instead of a crash.

Files:
- `outcome.dfy` (module `Outcome`) holds `Option`, `Result` and the Python exceptions the code raises (`PyError`).
- `species.dfy` (module `Species`) holds the facts record, the page lines and the `table[name]` lookup.
- `global_app.dfy` (module `GlobalApp`) models `streamlit_app_global.py`.
- `remote_app.dfy` (module `RemoteApp`) models `sgwildflowers_st.py`.

Modelling choices:
- The branch test `w/ht > 1` uses exact real division. A zero height yields `ZeroDivisionError`.
- Crop offsets are exact reals, so they can be half pixels.
- The tag table `ExifTags.TAGS` is an input: a sequence of `(id, name)` pairs in dictionary order.
- The `_getexif()` result is an input: `None` when the image has no EXIF data.
- The reply body is an input string.
- Python's loop-variable semantics are kept. When TAGS has no keys, `orientation` is never bound. If the image has EXIF data, line 74 then raises an uncaught `NameError`. Without EXIF data, line 72's AttributeError comes first and is caught. When no key is named `Orientation`, the variable holds the last key.
- On the remote path the header is written before the failing `info[prediction]` lookup, so a miss shows the header and then the error line.
- On the local path the lookups at lines 137-139 have no guard. The model keeps that: a missing key would be a `KeyError` failure. The model then proves that this failure cannot happen.
- Each script keeps its own literal `info` table, as the source does. `RemoteApp.InfoMatchesLocalTable` proves the two equal.

Error behaviour on the two paths:
- On the remote path, lines 95-96 catch an unknown label and write a message. On the local path, `LocalPageOfPrediction` proves an unknown label cannot occur.
- When the image has EXIF data, an empty tag table raises an uncaught `NameError` at line 74. Without EXIF data, line 72's AttributeError is raised first and caught. PIL's real table always contains `Orientation`.

## Model

| member | source | states |
|---|---|---|
| GlobalApp.IsWiderThanTall | wildflowers/streamlit_app_global.py:21-23 | the test `w/ht > 1` fails with ZeroDivisionError exactly when the height is 0, and otherwise holds exactly when `w > ht` |
| GlobalApp.CropBox | wildflowers/streamlit_app_global.py:21-32 | zero height gives ZeroDivisionError; a wider image gives a box of width `ht` over rows `0..ht`; otherwise (square included) a box of height `w` over columns `0..w` |
| GlobalApp.CropBoxCentred | wildflowers/streamlit_app_global.py:23-32 | the box is centred: `left == w - right` and `top == ht - bottom` |
| GlobalApp.CropBoxInsideImage | wildflowers/streamlit_app_global.py:21-32 | `0 <= left <= right <= w`, `0 <= top <= bottom <= ht`, and the box is a square of side `min(w, ht)` |
| GlobalApp.SquareCropIsIdentity | wildflowers/streamlit_app_global.py:28-32 | a square image of side n yields the whole-image box `(0, 0, n, n)` |
| GlobalApp.PreprocessImg | wildflowers/streamlit_app_global.py:16-44 | for every positive height the preprocessed shape is exactly (1, 299, 299, 3) and the crop is `CropBox(w, ht)`; zero height fails |
| GlobalApp.FirstMaxIndex | wildflowers/streamlit_app_global.py:134 | the index is in range, holds a maximal score, and every earlier score is strictly smaller (numpy's first-maximum tie rule) |
| GlobalApp.RowArgmaxes | wildflowers/streamlit_app_global.py:134 | one index per row, each the row's first maximal index |
| GlobalApp.ArgmaxAxis1 | wildflowers/streamlit_app_global.py:134 | succeeds exactly when no row is empty (ValueError otherwise), with one first-maximum index per row; a batch with no rows succeeds with no indices |
| GlobalApp.SingleRowArgmax | wildflowers/streamlit_app_global.py:134 | a batch of one non-empty row yields `[FirstMaxIndex(row)]` |
| GlobalApp.ClassDictDomain | wildflowers/streamlit_app_global.py:49-59 | `class_dict` is defined exactly on 0..9 |
| GlobalApp.InterpretResults | wildflowers/streamlit_app_global.py:48-62 | succeeds exactly when `result[0]` is in 0..9, returning `class_dict[result[0]]`; an empty result gives IndexError, any other index KeyError |
| GlobalApp.ClassNamesDistinct | wildflowers/streamlit_app_global.py:49-59 | the ten class names are pairwise distinct |
| GlobalApp.FactsNonEmpty | wildflowers/streamlit_app_global.py:65-95 | every record has a non-empty scientific name and fun fact |
| GlobalApp.ClassNamesAreInfoKeys | wildflowers/streamlit_app_global.py:49-95 | the class names and the keys of `info` are the same set |
| GlobalApp.InterpretedNameHasFacts | wildflowers/streamlit_app_global.py:48-95 | every name `interpret_results` returns is a key of `info` |
| GlobalApp.LocalPage | wildflowers/streamlit_app_global.py:131-139 | a shown page is a header naming the class that `interpret_results` gives for the argmax of the scores, a species of both tables, then exactly that species' three facts |
| GlobalApp.LocalPageOfPrediction | wildflowers/streamlit_app_global.py:134-139 | once argmax and `interpret_results` succeed, the unguarded `info[prediction]` lookups succeed and show that record |
| GlobalApp.LocalPageForModelOutput | wildflowers/streamlit_app_global.py:131-139 | for the model's one row of ten scores the page never fails and shows the facts of the class of the first maximal score |
| Species.Lookup | wildflowers/sgwildflowers_st.py:92-94 | `info[name]` succeeds exactly when the name is a key, with that key's record, and is KeyError otherwise |
| RemoteApp.InfoMatchesLocalTable | wildflowers/sgwildflowers_st.py:11-41 | this script's `info` equals the local app's table key for key and field for field |
| RemoteApp.TagSearch | wildflowers/sgwildflowers_st.py:68-70 | the loop variable is unbound exactly when the tag table is empty, and otherwise is one of its ids |
| RemoteApp.TagSearchStopsAtFirstMatch | wildflowers/sgwildflowers_st.py:68-70 | the search stops at the first id whose name is 'Orientation' |
| RemoteApp.TagSearchWithoutMatch | wildflowers/sgwildflowers_st.py:68-70 | with no 'Orientation' name the loop variable ends at the last id |
| RemoteApp.FindOrientationTagId | wildflowers/sgwildflowers_st.py:68-70 | the `for ... break` loop leaves exactly `TagSearch(tags)` in the loop variable |
| RemoteApp.RotationAngle | wildflowers/sgwildflowers_st.py:74-79 | 3 selects 180, 6 selects 270, 8 selects 90, and every other value selects no rotation |
| RemoteApp.ApplyOrientation | wildflowers/sgwildflowers_st.py:74-79 | 3 rotates by 180, 6 by 270, 8 by 90, any other value leaves the image; the three successive tests apply at most one rotation, the one `RotationAngle` chooses |
| RemoteApp.CorrectedImage | wildflowers/sgwildflowers_st.py:67-82 | no EXIF data leaves the image unrotated without error; with EXIF data an empty tag table gives NameError, the only error that escapes; a missing tag leaves the image unrotated; otherwise the image changes only by the one rotation `RotationAngle` selects for the tag value |
| RemoteApp.CorrectOrientation | wildflowers/sgwildflowers_st.py:67-82 | the `try` block, running the tag search loop and the three successive tests, leaves exactly `CorrectedImage(img, tags, exif)` |
| RemoteApp.ResponsePage | wildflowers/sgwildflowers_st.py:89-96 | a reply text that is a key of `info` shows the header and that record's three fields; any other text shows the header and an error line, never a crash |
| RemoteApp.HandleUpload | wildflowers/sgwildflowers_st.py:61-96 | the request carries the original file bytes whatever the orientation correction did; the displayed image is the upload corrected as `CorrectedImage` prescribes (the rotation chosen by the EXIF value, or none); the page is `ResponsePage` of the reply; it fails only for an empty tag table with EXIF data present |

## Left out

- The Streamlit UI is not modelled: title, uploader, divider, `st.image`, and the markup inside header and message strings. The page is modelled as a list of `Output` lines.
- Model loading (`tf.keras.models.load_model`) and `model.predict` are foreign library calls returning floats. The model's scores are an input sequence of reals.
- GlobalApp.ArgmaxAxis1: a batch with no rows is taken to succeed with `[]`. A list of rows has no column count, and numpy raises ValueError for a (0, 0) array but returns `[]` for (0, k) with k > 0. Line 134 never produces such a batch, because `model.predict` returns one row of ten scores.
- NaN scores are not modelled. numpy's argmax returns the first NaN.
- The HTTP POST is network I/O. The model records the request it would send and takes the reply body as an input string. Transport failures are not modelled.
- Image decoding and conversion (`cv2.imdecode`, `cvtColor`, `Image.open`, `convert('RGB')`) are library codecs. Decoding failures are not modelled. The decoded image is represented by its size or by the original bytes.
- PIL pixel operations are not modelled: LANCZOS resampling, the rounding of half-pixel crop coordinates inside `Image.crop`, and the pixels of `rotate(..., expand=True)`. Only the box and the chosen angle are modelled.
- `preprocess_input` is a Keras call on floating-point arrays that scales pixels to [-1, 1]. It is not modelled.
- GlobalApp.IsWiderThanTall: uses exact division. Python's floating-point `w/ht` agrees with it for dimensions below 2^53.
- RemoteApp.CorrectOrientation: EXIF values are modelled as integers. A value that Python's `==` finds equal to 3, 6 or 8 behaves as that integer; examples are 3.0 and Pillow's `IFDRational` 3/1. Any other value (a tuple, bytes, a string) behaves as an integer outside {3, 6, 8}.
- The text of `str(KeyError(label))` written after "Error processing API response: " is not rendered. The error line only carries the missing label.
