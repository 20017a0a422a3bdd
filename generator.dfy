/** The data generator: it builds the label index, splits the shuffled names
    into a training and a validation set, and assembles batches of augmented
    images with their labels, one batch per call. */
module Generator {
  import opened Errors
  import opened Images
  import opened Labels
  import opened Augment

  /** Width of an attribute label row (`np.zeros((batch_size, 30))`). */
  const AttributeWidth: nat := 30

  // ------------------------------------------------------------- split

  /** Python's normalisation of the slice bound `k` on a sequence of length `n`. */
  function SliceBound(k: int, n: nat): (b: nat)
    ensures b <= n
    ensures 0 <= k <= n ==> b == k
    ensures k > n ==> b == n
    ensures k < 0 && n + k >= 0 ==> b == n + k
    ensures n + k < 0 ==> b == 0
  {
    if k < 0 then (if n + k < 0 then 0 else n + k) else if k > n then n else k
  }

  datatype Sets = Sets(train: seq<string>, valid: seq<string>)

  /** `table[:n - v]` and `table[n - v:]` for `v = int(n * validation_rate)`. */
  function Split(table: seq<string>, validSample: int): (r: Sets)
    ensures r.train + r.valid == table
    ensures 0 <= validSample <= |table| ==>
              |r.valid| == validSample && r.train == table[..|table| - validSample]
    ensures validSample <= 0 ==> r.train == table && r.valid == []
  {
    var cut := SliceBound(|table| - validSample, |table|);
    Sets(table[..cut], table[cut..])
  }

  /** No name occurs twice. */
  predicate NoDuplicates(s: seq<string>) {
    forall i, j :: 0 <= i < j < |s| ==> s[i] != s[j]
  }

  /** With distinct names, the two sets share none. */
  lemma SplitDisjoint(table: seq<string>, validSample: int)
    requires NoDuplicates(table)
    ensures forall x :: x in Split(table, validSample).train ==> x !in Split(table, validSample).valid
  {
    var sets := Split(table, validSample);
    var cut := |sets.train|;
    forall x | x in sets.train
      ensures x !in sets.valid
    {
      var i :| 0 <= i < cut && sets.train[i] == x;
      forall j | 0 <= j < |sets.valid|
        ensures sets.valid[j] != x
      {
        assert sets.valid[j] == table[cut + j] && x == table[i];
      }
    }
  }

  // ------------------------------------------------------------- batch

  /** What one batch row holds: an image and the three labels of its name. */
  datatype Row = Row(image: Image, attributeLabel: seq<real>, numLabel: int, onehotLabel: seq<int>)

  /** The four parallel arrays one batch yields. */
  datatype Batch = Batch(
    images: seq<Image>,
    attributeLabels: seq<seq<real>>,
    numLabels: seq<int>,
    onehotLabels: seq<seq<int>>)
  {
    /** Row `i` read across the four arrays. */
    function RowAt(i: nat): Row
      requires i < |images| && i < |attributeLabels| && i < |numLabels| && i < |onehotLabels|
    {
      Row(images[i], attributeLabels[i], numLabels[i], onehotLabels[i])
    }

    /** The four arrays all hold `n` rows. */
    predicate HasRows(n: nat) {
      |images| == n && |attributeLabels| == n && |numLabels| == n && |onehotLabels| == n
    }
  }

  /** One row of a batch: sample a name from `pool`, then run the stage chain on it. */
  function RowOutcome(cfg: Config, ops: ImageOps, pool: seq<string>, d: RowDraws): (r: Result<Image>)
    requires Lawful(ops) && InRange(cfg, d, |pool|)
    ensures r.Ok? ==> pool != [] && IsSquare(r.value, cfg.imgSize)
    ensures pool == [] ==> r == Err(EmptySequence)
  {
    if pool == [] then Err(EmptySequence) else RowImage(cfg, ops, pool[d.pick], d)
  }

  /** One row of `_aux_generator`'s inner loop as a value: the stage chain's
      image of the sampled name, scaled, with that name's labels. The labels
      are read from the index only after the chain has run, so a name missing
      from the index raises there. */
  function ExpectedRow(
    cfg: Config, ops: ImageOps, index: map<string, LabelRecord>,
    pool: seq<string>, d: RowDraws, normalize: bool): (r: Result<Row>)
    requires Lawful(ops) && InRange(cfg, d, |pool|)
    ensures pool == [] ==> r == Err(EmptySequence)
    ensures r.Ok? ==> pool != [] && pool[d.pick] in index && IsSquare(r.value.image, cfg.imgSize)
  {
    var img :- RowOutcome(cfg, ops, pool, d);
    var name := pool[d.pick];
    if name !in index then Err(KeyError(DataDict, name))
    else
      var record := index[name];
      Ok(Row(Scaled(img, normalize), record.attributeLabel, record.numLabel, record.onehotLabel))
  }

  /** When the index is the join of the label tables, a row fails exactly when
      the set is empty, an enabled stage draws from an empty range, or the
      sampled name has no record. The error is sampling's or the stage chain's
      when they fail, and else the index's KeyError. A row that succeeds holds
      the sampled name's image, scaled, and the three labels the tables give
      that name's class. */
  lemma ExpectedRowMatches(
    cfg: Config, ops: ImageOps, tables: LabelTables, index: map<string, LabelRecord>,
    pool: seq<string>, d: RowDraws, normalize: bool)
    requires Lawful(ops) && InRange(cfg, d, |pool|)
    requires forall n :: n in index ==> Lookup(tables, n) == Ok(index[n])
    ensures ExpectedRow(cfg, ops, index, pool, d, normalize).Ok? <==>
              pool != [] && !RowFails(cfg, d) && pool[d.pick] in index
    ensures RowOutcome(cfg, ops, pool, d).Err? ==>
              ExpectedRow(cfg, ops, index, pool, d, normalize) == Err(RowOutcome(cfg, ops, pool, d).error)
    ensures RowOutcome(cfg, ops, pool, d).Ok? && pool[d.pick] !in index ==>
              ExpectedRow(cfg, ops, index, pool, d, normalize) == Err(KeyError(DataDict, pool[d.pick]))
    ensures ExpectedRow(cfg, ops, index, pool, d, normalize).Ok? ==>
              var row := ExpectedRow(cfg, ops, index, pool, d, normalize).value;
              && row.image == Scaled(RowImage(cfg, ops, pool[d.pick], d).value, normalize)
              && Lookup(tables, pool[d.pick]) == Ok(LabelRecord(row.attributeLabel, row.numLabel, row.onehotLabel))
  {
  }

  class DataGenerator {
    const cfg: Config
    const ops: ImageOps
    var trainTable: seq<string>
    var tables: LabelTables
    var dataDict: map<string, LabelRecord>
    var trainSet: seq<string>
    var validSet: seq<string>
    var trainDict: map<string, LabelRecord>
    var validDict: map<string, LabelRecord>
    /** Whether `_create_sets` has run: `__init__` sets none of the attributes
        above, and `train_set` and `valid_set` exist only once the sets are cut. */
    var setsCreated: bool

    /** Every name in the table has a record. */
    ghost predicate Indexed()
      reads this
    {
      forall n :: n in trainTable ==> n in dataDict
    }

    /** Every record is the join of the tables for its name. */
    ghost predicate Joined()
      reads this
    {
      forall n :: n in dataDict ==> Lookup(tables, n) == Ok(dataDict[n])
    }

    /** `d` has exactly the names of `s` as keys, each with its index record. */
    ghost predicate DictOf(s: seq<string>, d: map<string, LabelRecord>)
      reads this
    {
      && (forall n :: n in d <==> n in s)
      && (forall n :: n in d ==> n in dataDict && d[n] == dataDict[n])
    }

    /** The state after `generate_set`: an index covering the table, the
      table cut into the two sets, and each set's dictionary. */
    ghost predicate Ready()
      reads this
    {
      && setsCreated
      && Indexed()
      && trainSet + validSet == trainTable
      && DictOf(trainSet, trainDict)
      && DictOf(validSet, validDict)
    }

    /** After a `generate_set` that passed, every name either set can yield
        has a record, so no batch row raises the index's KeyError. */
    lemma ReadyPoolsIndexed(sampleSet: string)
      requires Ready()
      ensures forall n :: n in Pool(sampleSet) ==> n in dataDict
    {
      forall n | n in Pool(sampleSet)
        ensures n in trainTable
      {
        assert n in trainSet + validSet;
      }
    }

    /** The set `_aux_generator` samples from: the training set for `"train"`
        and the validation set for any other name, so that unlike
        `_give_batch_name` a misspelt set name samples the validation set.
        After setup every name it holds is a name of the table. */
    function Pool(sampleSet: string): (pool: seq<string>)
      reads this
      ensures sampleSet == "train" ==> pool == trainSet
      ensures sampleSet != "train" ==> pool == validSet
      ensures Ready() ==> forall n :: n in pool ==> n in trainTable
    {
      if sampleSet == "train" then trainSet else validSet
    }

    /** The attribute holding the set `Pool(sampleSet)` reads. */
    function PoolAttribute(sampleSet: string): string {
      if sampleSet == "train" then "train_set" else "valid_set"
    }

    /** `__init__` records the configuration only; the sets do not exist yet. */
    constructor (cfg: Config, ops: ImageOps)
      ensures this.cfg == cfg && this.ops == ops && !setsCreated
      ensures trainTable == [] && dataDict == map[] && trainSet == [] && validSet == []
      ensures trainDict == map[] && validDict == map[]
    {
      this.cfg := cfg;
      this.ops := ops;
      trainTable := [];
      tables := LabelTables(map[], map[], map[], map[]);
      dataDict := map[];
      trainSet, validSet := [], [];
      trainDict, validDict := map[], map[];
      setsCreated := false;
    }

    /** Take the names of the training file in order, then join each with the
        tables; the first lookup that fails aborts with the index built so far. */
    method ReadTrainData(names: seq<string>, tables: LabelTables) returns (o: Outcome)
      modifies this`trainTable, this`tables, this`dataDict
      ensures trainTable == names && this.tables == tables
      ensures Joined()
      ensures o.Pass? <==> forall k :: 0 <= k < |names| ==> Resolvable(tables, names[k])
      ensures o.Pass? ==> Indexed() && forall n :: n in dataDict <==> n in names
      ensures o.Fail? ==>
                exists k ::
                  && 0 <= k < |names|
                  && Lookup(tables, names[k]) == Err(o.error)
                  && (forall j :: 0 <= j < k ==> Resolvable(tables, names[j]))
                  && (forall n :: n in dataDict <==> n in names[..k])
    {
      trainTable := names;
      this.tables := tables;
      dataDict := map[];
      for i := 0 to |names|
        invariant trainTable == names && this.tables == tables
        invariant forall j :: 0 <= j < i ==> Resolvable(tables, names[j])
        invariant forall n :: n in dataDict <==> n in names[..i]
        invariant Joined()
      {
        var record := Lookup(tables, names[i]);
        if record.Err? {
          return Fail(record.error);
        }
        assert names[..i + 1] == names[..i] + [names[i]];
        dataDict := dataDict[names[i] := record.value];
      }
      assert names[..|names|] == names;
      return Pass;
    }

    /** `random.shuffle`: the table in a new order, given as a parameter. */
    method Randomize(shuffled: seq<string>)
      requires multiset(shuffled) == multiset(trainTable)
      modifies this`trainTable
      ensures trainTable == shuffled
      ensures old(Indexed()) ==> Indexed()
    {
      ghost var before := trainTable;
      trainTable := shuffled;
      forall n | n in shuffled
        ensures n in before
      {
        assert n in multiset(shuffled);
      }
    }

    /** Cut the table into the two sets and build each set's dictionary from the index. */
    method CreateSets(validSample: int)
      requires Indexed()
      modifies this`trainSet, this`validSet, this`trainDict, this`validDict, this`setsCreated
      ensures Ready()
      ensures Sets(trainSet, validSet) == Split(trainTable, validSample)
    {
      var sets := Split(trainTable, validSample);
      forall n | n in sets.train
        ensures n in dataDict
      {
        var i :| 0 <= i < |sets.train| && sets.train[i] == n;
        assert trainTable[i] == n;
      }
      forall n | n in sets.valid
        ensures n in dataDict
      {
        var i :| 0 <= i < |sets.valid| && sets.valid[i] == n;
        assert trainTable[|sets.train| + i] == n;
      }
      trainSet, validSet := sets.train, sets.valid;
      trainDict := SubDict(trainSet);
      validDict := SubDict(validSet);
      setsCreated := true;
    }

    /** One of `_create_sets`' two loops: the index entries of the names in `s`. */
    method SubDict(s: seq<string>) returns (d: map<string, LabelRecord>)
      requires forall n :: n in s ==> n in dataDict
      ensures DictOf(s, d)
    {
      d := map[];
      for item := 0 to |s|
        invariant forall n :: n in d <==> n in s[..item]
        invariant forall n :: n in d ==> n in dataDict && d[n] == dataDict[n]
      {
        assert s[..item + 1] == s[..item] + [s[item]];
        d := d[s[item] := dataDict[s[item]]];
      }
      assert s[..|s|] == s;
    }

    /** `generate_set`: read and index the training data, shuffle it when
        asked, and split it with `validSample = int(N * validation_rate)`. */
    method GenerateSet(names: seq<string>, tables: LabelTables, rand: bool, shuffled: seq<string>, validSample: int)
      returns (o: Outcome)
      requires rand ==> multiset(shuffled) == multiset(names)
      modifies this`trainTable, this`tables, this`dataDict
      modifies this`trainSet, this`validSet, this`trainDict, this`validDict, this`setsCreated
      ensures this.tables == tables && Joined()
      ensures o.Pass? <==> forall k :: 0 <= k < |names| ==> Resolvable(tables, names[k])
      ensures o.Pass? ==> Ready() && forall n :: n in dataDict <==> n in names
      ensures o.Pass? ==> trainTable == (if rand then shuffled else names)
      ensures o.Pass? ==> Sets(trainSet, validSet) == Split(trainTable, validSample)
      ensures o.Fail? ==>
                && trainTable == names
                && (exists k ::
                      && 0 <= k < |names|
                      && Lookup(tables, names[k]) == Err(o.error)
                      && (forall j :: 0 <= j < k ==> Resolvable(tables, names[j]))
                      && (forall n :: n in dataDict <==> n in names[..k]))
                && setsCreated == old(setsCreated)
                && trainSet == old(trainSet) && validSet == old(validSet)
                && trainDict == old(trainDict) && validDict == old(validDict)
    {
      o := ReadTrainData(names, tables);
      if o.Fail? {
        return;
      }
      if rand {
        Randomize(shuffled);
      }
      CreateSets(validSample);
    }

    /** `_give_batch_name`: `batchSize` names drawn with replacement from the
        named set; any `setName` other than "train" or "valid" gives no names.
        Before `generate_set` has cut the sets, the first draw reads a missing attribute. */
    method GiveBatchName(batchSize: nat, setName: string, picks: seq<nat>) returns (r: Result<seq<string>>)
      requires |picks| == batchSize
      requires Pool(setName) != [] ==> forall i :: 0 <= i < batchSize ==> picks[i] < |Pool(setName)|
      ensures setName != "train" && setName != "valid" ==> r == Ok([])
      ensures (setName == "train" || setName == "valid") && !setsCreated ==>
                r == if batchSize > 0 then Err(AttributeError(PoolAttribute(setName))) else Ok([])
      ensures (setName == "train" || setName == "valid") && setsCreated ==>
                && (r.Err? <==> batchSize > 0 && Pool(setName) == [])
                && (r.Err? ==> r.error == EmptySequence)
                && (r.Ok? ==> |r.value| == batchSize &&
                              forall i :: 0 <= i < batchSize ==> r.value[i] == Pool(setName)[picks[i]])
    {
      var names: seq<string> := [];
      for i := 0 to batchSize
        invariant setName == "train" || setName == "valid" ==> |names| == i
        invariant setName == "train" || setName == "valid" ==> i > 0 ==> setsCreated && Pool(setName) != []
        invariant setName == "train" || setName == "valid" ==> forall k :: 0 <= k < i ==> names[k] == Pool(setName)[picks[k]]
        invariant setName != "train" && setName != "valid" ==> names == []
      {
        if setName == "train" {
          if !setsCreated {
            return Err(AttributeError("train_set"));
          }
          if trainSet == [] {
            return Err(EmptySequence);
          }
          names := names + [trainSet[picks[i]]];
        } else if setName == "valid" {
          if !setsCreated {
            return Err(AttributeError("valid_set"));
          }
          if validSet == [] {
            return Err(EmptySequence);
          }
          names := names + [validSet[picks[i]]];
        } else {
          break;
        }
      }
      return Ok(names);
    }

    /** The stage chain of one row as `_aux_generator` runs it. */
    method AugmentRow(name: string, d: RowDraws) returns (r: Result<Image>)
      requires Lawful(ops) && StagesInRange(cfg, d)
      ensures r == RowImage(cfg, ops, name, d)
    {
      var img: Image;
      if cfg.ifCrop {
        img := ops.load(name, cfg.sizeBeforeCrop);
        var cropped := CropStage(cfg, ops, img, name, d.crop);
        if cropped.Err? {
          return Err(cropped.error);
        }
        img := cropped.value;
      } else {
        img := ops.load(name, cfg.imgSize);
      }
      if cfg.ifFlip {
        img := FlipStage(img, d.flip);
      }
      if cfg.ifColor {
        var colored := ColorStage(cfg, ops, img, d.color);
        if colored.Err? {
          return Err(colored.error);
        }
        img := colored.value;
      }
      if cfg.ifSize {
        img := SizeAugment(cfg, ops, img, d.size);
      }
      if cfg.ifRotate {
        r := RotateStage(cfg, ops, img, d.rotate);
      } else {
        r := Ok(img);
      }
    }

    /** One row of `_aux_generator`'s inner loop: pick a name, run the stage
        chain, look the name up in the index and normalise the image. */
    method AssembleRow(pool: seq<string>, d: RowDraws, normalize: bool) returns (r: Result<Row>)
      requires Lawful(ops) && InRange(cfg, d, |pool|)
      ensures r == ExpectedRow(cfg, ops, dataDict, pool, d, normalize)
    {
      if pool == [] {
        return Err(EmptySequence);
      }
      var name := pool[d.pick];
      var img := AugmentRow(name, d);
      if img.Err? {
        return Err(img.error);
      }
      if name !in dataDict {
        return Err(KeyError(DataDict, name));
      }
      var record := dataDict[name];
      r := Ok(Row(Scaled(img.value, normalize), record.attributeLabel, record.numLabel, record.onehotLabel));
    }

    /** The inner loop of `_aux_generator`: row `i` of the four arrays is
        assembled from `draws[i]`, in order; the first row that fails stops
        the loop with its error. */
    method FillRows(
      images: array<Image>, attributeLabels: array<seq<real>>, numLabels: array<int>, onehotLabels: array<seq<int>>,
      pool: seq<string>, draws: seq<RowDraws>, normalize: bool)
      returns (o: Outcome)
      requires Lawful(ops)
      requires forall i :: 0 <= i < |draws| ==> InRange(cfg, draws[i], |pool|)
      requires images.Length == attributeLabels.Length == numLabels.Length == onehotLabels.Length == |draws|
      modifies images, attributeLabels, numLabels, onehotLabels
      ensures o.Fail? ==>
                exists i ::
                  && 0 <= i < |draws|
                  && ExpectedRow(cfg, ops, dataDict, pool, draws[i], normalize) == Err(o.error)
                  && forall j :: 0 <= j < i ==> ExpectedRow(cfg, ops, dataDict, pool, draws[j], normalize).Ok?
      ensures o.Pass? ==>
                forall i :: 0 <= i < |draws| ==>
                  ExpectedRow(cfg, ops, dataDict, pool, draws[i], normalize)
                    == Ok(Row(images[i], attributeLabels[i], numLabels[i], onehotLabels[i]))
    {
      for i := 0 to |draws|
        invariant forall k :: 0 <= k < i ==>
                    ExpectedRow(cfg, ops, dataDict, pool, draws[k], normalize)
                      == Ok(Row(images[k], attributeLabels[k], numLabels[k], onehotLabels[k]))
      {
        var row := AssembleRow(pool, draws[i], normalize);
        if row.Err? {
          return Fail(row.error);
        }
        attributeLabels[i] := row.value.attributeLabel;
        numLabels[i] := row.value.numLabel;
        onehotLabels[i] := row.value.onehotLabel;
        images[i] := row.value.image;
      }
      return Pass;
    }

    /** One pass of `_aux_generator`'s outer loop: four zeroed arrays of
        `batchSize` rows, filled row by row and yielded; the first row that
        fails aborts the batch. Before `generate_set` has cut the sets, the
        first draw reads a missing attribute. */
    method NextBatch(batchSize: nat, normalize: bool, sampleSet: string, draws: seq<RowDraws>)
      returns (r: Result<Batch>)
      requires Lawful(ops)
      requires |draws| == batchSize
      requires forall i :: 0 <= i < batchSize ==> InRange(cfg, draws[i], |Pool(sampleSet)|)
      ensures !setsCreated && batchSize > 0 ==> r == Err(AttributeError(PoolAttribute(sampleSet)))
      ensures setsCreated || batchSize == 0 ==>
                (r.Ok? <==>
                   forall i :: 0 <= i < batchSize ==> ExpectedRow(cfg, ops, dataDict, Pool(sampleSet), draws[i], normalize).Ok?)
      ensures setsCreated && r.Err? ==>
                exists i ::
                  && 0 <= i < batchSize
                  && ExpectedRow(cfg, ops, dataDict, Pool(sampleSet), draws[i], normalize) == Err(r.error)
                  && forall j :: 0 <= j < i ==> ExpectedRow(cfg, ops, dataDict, Pool(sampleSet), draws[j], normalize).Ok?
      ensures r.Ok? ==>
                && r.value.HasRows(batchSize)
                && forall i :: 0 <= i < batchSize ==>
                     ExpectedRow(cfg, ops, dataDict, Pool(sampleSet), draws[i], normalize) == Ok(r.value.RowAt(i))
    {
      var images := new Image[batchSize](_ => ZeroImage(cfg.imgSize));
      var attributeLabels := new seq<real>[batchSize](_ => seq(AttributeWidth, _ => 0.0));
      var numLabels := new int[batchSize](_ => 0);
      var onehotLabels := new seq<int>[batchSize](_ => seq(cfg.numClass, _ => 0));
      if !setsCreated && batchSize > 0 {
        return Err(AttributeError(PoolAttribute(sampleSet)));
      }
      var o := FillRows(images, attributeLabels, numLabels, onehotLabels, Pool(sampleSet), draws, normalize);
      if o.Fail? {
        return Err(o.error);
      }
      r := Ok(Batch(images[..], attributeLabels[..], numLabels[..], onehotLabels[..]));
    }
  }
}
