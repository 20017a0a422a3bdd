# Data generator of the zero-shot-learning baseline, in Dafny

This project models the data generator that feeds a zero-shot image classifier during training. The generator does three things:

- **It builds the label index.** The training file gives every image a class. The class is joined with three per-class tables: attribute vector, numeric id and one-hot vector. Every image name then maps to one label record (`data_dict`).
- **It splits the names.** The optionally shuffled names are cut at a fixed position into a training set and a validation set. Each set gets a dictionary of its records (`train_dict`, `valid_dict`).
- **It assembles batches.** Each slot of a batch draws a name with replacement from the chosen set. The name's image goes through the enabled augmentation stages in a fixed order: crop-and-resize (or reload), flip, colour jitter, scale-and-fit, rotate. The image is optionally divided by 255. It is stored with the name's three labels in four parallel arrays.

The model is split into five modules:

- `Errors`: the exceptions the Python code lets escape, and a `Result` type that carries them.
- `Images`: images as `h×w×3` nested sequences, the two PIL flips, the centred paste and the centred window of the scale-and-fit stage, and PIL's box crop.
- `Labels`: the four tables and the join of one image name (`Lookup`).
- `Augment`: the five stages and the chain that runs them.
  - Library calls (image loading, `cv2.resize`, PIL resize, `ImageEnhance`, blur, `skimage` rotate) are fields of an `ImageOps` value. `Lawful` states the one thing the model assumes of them: they return images of the requested square shape.
  - Random draws are parameters. The `…InRange` predicates say which values the random sources can produce.
  - `SizeAugment` allocates the zero canvas as an `array2` and fills it by slice assignment, as the source does.
- `Generator`: the split as a function, and the class `DataGenerator`.
  - Its fields are the table, the index, the two sets, their dictionaries, and whether the sets exist yet.
  - Its methods are the loops of `_read_train_data`, `_create_sets`, `_give_batch_name` and one pass of `_aux_generator` (`NextBatch`).
  - Each method is proved against a function or predicate that says what it computes.

Where the code does less than its own comments and intent suggest, the model follows the code:

- **No check on the validation rate.** The docstring of `_create_sets` (`data_generator.py:100`) asks for a rate in `]0,1[`, but nothing checks it. `int(N * rate)` goes straight into Python slices, and `Split` models Python's normalisation of negative and oversized bounds.
- **Disjoint sets need distinct names.** The two sets are disjoint only when the training file lists no name twice (`SplitDisjoint`).
- **The crop offset never reaches the last position.** `np.random.randint(0, hi)` excludes `hi`, so the offset is in `[0, S - cs)`. The crop box therefore never touches the last row or column of the source. A crop scale that leaves `hi <= 0` (for example `crop_scale = 1`) makes the draw raise (`CropStage`).
- **The flip has no outer coin.** Only the two sub-flips are gated.
- **A failed setup keeps the old sets.** When `generate_set` passes once and then fails, the sets of the first call remain over the new, partial index. A batch drawn from them raises KeyError on the index at line 291, after the stage chain has run (`ExpectedRow`, `AssembleRow`).
- **Nothing exists before setup.** `__init__` stores the paths only. Asking for batch names or a batch before `generate_set` has cut the sets reads a missing attribute (`setsCreated`, `AttributeError`).

## Model

| member | source | states |
|---|---|---|
| Labels.Lookup | code/competition_scripts/data_generator.py:70-76 | The join of one image name succeeds exactly when the name has a class and that class is in all three per-class tables. The record then holds the class's attribute vector, numeric id and one-hot vector. Otherwise the error names a table and a key that is missing from it, and a name without a class fails on the first table. |
| Generator.DataGenerator.ReadTrainData | code/competition_scripts/data_generator.py:70-76 | The table becomes the names in file order and every record in the index is the join of its name. The loop passes exactly when every name resolves; then the index has exactly the table's names. Otherwise it raises the error of the first name that fails, and the index holds exactly the names before it. |
| Generator.DataGenerator.Randomize | code/competition_scripts/data_generator.py:82-85 | The table becomes the given permutation of itself, and every name of the new table still has a record. |
| Generator.SliceBound | code/competition_scripts/data_generator.py:106-107 | Python's slice bound: in range it is kept, above the length it is the length, a negative bound counts from the end, and below `-n` it is 0. |
| Generator.Split | code/competition_scripts/data_generator.py:104-107 | The two sets concatenate to the table. For `0 <= v <= N` the validation set has `v` names and the training set is the first `N - v`. For `v <= 0` (a zero rate in particular) the validation set is empty and the training set is the whole table. |
| Generator.SplitDisjoint | code/competition_scripts/data_generator.py:106-107 | When no name occurs twice in the table, no name is in both sets. |
| Generator.DataGenerator.SubDict | code/competition_scripts/data_generator.py:117-121 | The dictionary one `_create_sets` loop builds has exactly the names of its set as keys, and each maps to that name's index record. |
| Generator.DataGenerator.CreateSets | code/competition_scripts/data_generator.py:97-121 | The sets are the cut of the table at `N - v`, and each set's dictionary has exactly that set's names, mapped to their index records. |
| Generator.DataGenerator.constructor | code/competition_scripts/data_generator.py:23-33 | A new generator has no sets yet (`setsCreated` is false). |
| Generator.DataGenerator.GenerateSet | code/competition_scripts/data_generator.py:87-95 | Setup passes exactly when every name of the file resolves. Then the index has exactly the file's names, each mapped to its join. The table is the shuffled or the original name list, the sets are its cut, and the dictionaries match their sets. When a name fails, the error is the first failing name's. The table is the file's names and the index holds exactly the names before the failing one. The sets and their dictionaries are left as they were. |
| Generator.DataGenerator.Pool | code/competition_scripts/data_generator.py:260-264 | "train" samples the training set, and every other set name samples the validation set. After setup every name in the chosen set is a name of the table. |
| Generator.DataGenerator.ReadyPoolsIndexed | code/competition_scripts/data_generator.py:104-107 | After a setup that passed, every name either set can yield has a record in the index, so no batch row raises the index's KeyError. |
| Generator.DataGenerator.GiveBatchName | code/competition_scripts/data_generator.py:123-138 | For "train" or "valid" after setup, name `i` is the pick-th name of that set, and there are `batch_size` names. Drawing from an empty set raises, exactly when `batch_size > 0`. Before setup, the first draw raises the missing-attribute error for that set. Any other set name gives the empty list. |
| Images.ZeroImage | code/competition_scripts/data_generator.py:162 | The `n×n×3` zero canvas: square, and every pixel black. |
| Images.FlipTopBottom | code/competition_scripts/data_generator.py:237-238 | The vertical flip keeps an `h×w×3` image's shape and reads row `r` from row `h-1-r`. |
| Images.FlipLeftRight | code/competition_scripts/data_generator.py:240-241 | The horizontal flip keeps an `h×w×3` image's shape and reads column `c` from column `w-1-c`. |
| Images.FlipTopBottomInvolution | code/competition_scripts/data_generator.py:237-238 | Flipping top to bottom twice gives back the image. |
| Images.FlipLeftRightInvolution | code/competition_scripts/data_generator.py:240-241 | Flipping left to right twice gives back the image. |
| Images.FlipsCommute | code/competition_scripts/data_generator.py:237-241 | The two flips give the same image in either order. |
| Augment.FlipStage | code/competition_scripts/data_generator.py:233-244 | The flip stage keeps the shape. Cell `(r, c)` comes from row `h-1-r` when the first coin flips and from column `w-1-c` when the second coin flips. |
| Augment.FlipStageInvolution | code/competition_scripts/data_generator.py:233-244 | Applying the flip stage twice with the same two coins gives back the image, for every pair of coins. |
| Images.Offset | code/competition_scripts/data_generator.py:163-164 | The `(big - small) // 2` margin keeps the window inside the square and splits the slack evenly, with the odd pixel after the window. |
| Images.CenterPaste | code/competition_scripts/data_generator.py:162-165 | Pasting an `s×s` image centred on a zero canvas of side `n >= s` gives an `n×n×3` image. |
| Images.CenterCrop | code/competition_scripts/data_generator.py:171-174 | The centred `n×n` window of a larger square image is an `n×n×3` image. |
| Images.CropUndoesPaste | code/competition_scripts/data_generator.py:158-166 | Cutting the centred window back out of the padded canvas gives the resized image unchanged: the paste loses nothing and nothing overwrites it. |
| Images.CenterAtSameSizeIsIdentity | code/competition_scripts/data_generator.py:158-175 | When the resized side equals the canvas size, both the paste and the window are the identity. |
| Augment.SizeStage | code/competition_scripts/data_generator.py:148-179 | The stage always yields an `img_size×img_size×3` image, and on the 0 coin it yields the input unchanged. |
| Augment.SizeStagePlacement | code/competition_scripts/data_generator.py:158-175 | Shrink branch: cell `(r, c)` is `resized[r-p][c-p]` inside the window at `p = (img_size - s) // 2`, and 0 elsewhere. Grow branch: cell `(r, c)` is `resized[r+q][c+q]` with `q = (s - img_size) // 2`. |
| Augment.ShrinkKeepsResized | code/competition_scripts/data_generator.py:158-166 | In the shrink branch, the centred `s×s` window of the output is exactly the resized image. |
| Augment.SizeStageAtSameSide | code/competition_scripts/data_generator.py:155-175 | When the drawn side equals `img_size`, the output is the resized image whichever branch runs. |
| Augment.PasteAt | code/competition_scripts/data_generator.py:165 | The slice assignment writes the image into the window at offset `p` and leaves every other canvas cell as it was. |
| Augment.CopyWindow | code/competition_scripts/data_generator.py:174 | The slice assignment fills every canvas cell `(i, j)` with `y[i+q][j+q]`. |
| Augment.PadToCanvas | code/competition_scripts/data_generator.py:162-166 | Allocating the zero canvas and pasting the resized image into its centre yields the centred paste. |
| Augment.CropToCanvas | code/competition_scripts/data_generator.py:171-175 | Allocating the canvas and copying the centred window into it yields the centred window. |
| Augment.SizeAugment | code/competition_scripts/data_generator.py:451-482 | The canvas-filling code computes the size stage on every draw: pad, crop or identity. |
| Augment.CropBox | code/competition_scripts/data_generator.py:223-226 | For offsets in `[0, S - cs)` the box is `cs` pixels on each side, lies within the `S×S` source, and stops short of its last row and column. |
| Images.CropWindow | code/competition_scripts/data_generator.py:227 | PIL's crop of a box inside the image has the box's size, and cell `(r, c)` is source cell `(upper + r, left + c)`. |
| Augment.CropStage | code/competition_scripts/data_generator.py:220-231 | The stage fails exactly when its coin is 1 and the offset range `[0, S - cs)` is empty, with numpy's empty-range error. Otherwise it yields an `img_size` square. On the 0 coin it yields a fresh reload of the name, discarding the input. |
| Augment.Enhanced | code/competition_scripts/data_generator.py:186-189 | One gated enhancement fails exactly when it fires with no enhancement factors to choose from. Otherwise it keeps the shape, and a closed gate leaves the image unchanged. |
| Augment.ColorStage | code/competition_scripts/data_generator.py:181-218 | Colour jitter fails only with an empty factor list and a sub-gate that fires, and then with the empty-sequence error. Otherwise it keeps the `img_size` square, and the 0 coin leaves the image unchanged. |
| Augment.RotateStage | code/competition_scripts/data_generator.py:141-145 | Rotation fails exactly when its coin is 1 and `max_rotation <= 0`, with the range error. Otherwise it keeps the shape, and the 0 coin leaves the image unchanged. |
| Augment.RowImage | code/competition_scripts/data_generator.py:268-289 | The stage chain succeeds exactly when no enabled stage fails, and then yields an `img_size×img_size×3` image. A failing crop draw fails the chain with its own error. |
| Generator.DataGenerator.AugmentRow | code/competition_scripts/data_generator.py:268-289 | The statement-by-statement chain, with the canvas-filling size stage, computes the chain function. |
| Augment.Scaled | code/competition_scripts/data_generator.py:300-303 | Normalisation keeps the shape, is the identity when off, and maps values in `[0, 255]` into `[0, 1]`. |
| Generator.RowOutcome | code/competition_scripts/data_generator.py:260-289 | A row's image exists only when the set is non-empty, and is then an `img_size` square. Sampling from an empty set raises. |
| Generator.ExpectedRow | code/competition_scripts/data_generator.py:259-303 | One row of a batch: sampling from an empty set raises. A row that succeeds has a sampled name with a record in the index, and holds an `img_size×img_size×3` image. |
| Generator.ExpectedRowMatches | code/competition_scripts/data_generator.py:259-303 | When the index is the join of the label tables, a row fails exactly when the set is empty, an enabled stage draws from an empty range, or the sampled name has no record. When sampling or the chain fails, the row has their error. Otherwise a missing record raises KeyError on the index (line 291), after the chain has run. A row that succeeds holds the normalised chain image of the one sampled name, and the three labels the tables give that name's class. |
| Generator.DataGenerator.AssembleRow | code/competition_scripts/data_generator.py:259-303 | The code of one slot computes the row that its draws determine. |
| Generator.DataGenerator.FillRows | code/competition_scripts/data_generator.py:258-308 | If the loop completes, slot `i` of all four arrays holds the row that `draws[i]` determines. Otherwise it stops with the error of a row whose predecessors all succeed. |
| Generator.DataGenerator.NextBatch | code/competition_scripts/data_generator.py:252-309 | Before setup, a non-empty batch raises the missing-attribute error for the chosen set. After setup, a batch is yielded exactly when every row succeeds. Then all four arrays have `batch_size` rows, and row `i` of all four comes from the one name `draws[i]` samples from the chosen set. Otherwise the batch raises the error of the first row that fails. |

## Left out

- **File and console I/O.** Reading the training file, `cv2.imread`, `print`, plotting (`plot_img`), and counting (`count_train`) are left out. The names and the four label tables are parameters. `open_img` is the `load` field of `ImageOps`.
- **Image library calls.** `cv2.resize`, PIL `crop().resize`, `ImageEnhance`, `ImageFilter.BLUR`, `skimage.transform.rotate` and `cv2.cvtColor` are uninterpreted fields of `ImageOps`. The model assumes only that they return the requested square shape (`Lawful`).
- **Floating-point arithmetic.**
  - The compression ratio draw and `round(ratio * img_size)` become a drawn side and a shrink flag. `SizeDrawInRange` ties the flag to the side the way `ratio <= 1` does.
  - `int(N * validation_rate)` and `int(S * crop_scale)` are passed in as integers.
  - Normalisation divides real-valued pixels by 255 exactly.
- **Random draws.** `random.choice`, `np.random.randint`, `np.random.uniform` and `random.shuffle` are parameters: coins, indices, angles, factor choices and the shuffled order.
- **Pixel types.** The conversions between `uint8` and `float32` and the RGB/BGR/GRAY colour modes are not modelled. Pixels are three real channels.
- **Label widths.** The widths of the label arrays (30 attributes, `num_class` one-hot columns) are not checked against the tables' vectors. An array slot holds whatever vector the index gives.
- **Zero-size resize.** `cv2.resize` refuses a side of 0; the model lets `load` and the resizes return an empty image of side 0.
- **The generator protocol.** The infinite `while True` / `yield` loop and the `generator` wrapper are not modelled; `NextBatch` is one batch per call.
- **Test-time augmentation.** `aug_test_image` runs the same chain on test images through the module-level twins `open_img`, `crop_augmentation`, `flip_augmentation`, `color_augmentation`, `size_augmentation` and `rotate_augmentation`. It is covered only through the class methods' model. The module-level `size_augmentation`, `crop_augmentation` and `flip_augmentation` are line-for-line twins of the class methods, and the same members model them.
- **`aug_input_image`.** It works on arrays it is given, not on names. Its crop is unconditional: a fixed `0.7` of `img_size`, cut from an `img_size` input, with no coin and no reload. It is not modelled.
- **The label parsers.** The tables come from parsers that are not part of this model. Whether a class's one-hot vector agrees with its numeric id is their concern.
