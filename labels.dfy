/** The label index: every training image's record is a join of its class
    (from the image-to-class table) with three per-class tables. */
module Labels {
  import opened Errors

  /** What the index keeps per image (`data_dict[name]`). */
  datatype LabelRecord = LabelRecord(attributeLabel: seq<real>, numLabel: int, onehotLabel: seq<int>)

  /** The four tables the label parsers produce. */
  datatype LabelTables = LabelTables(
    imageToClass: map<string, string>,
    classToAttributes: map<string, seq<real>>,
    classToNum: map<string, int>,
    classToOnehot: map<string, seq<int>>)

  /** `key` is present in the named per-image or per-class table. */
  predicate HasKey(t: LabelTables, table: Table, key: string)
    requires !table.DataDict?
  {
    match table
    case ImageToClass => key in t.imageToClass
    case ClassToAttributes => key in t.classToAttributes
    case ClassToNum => key in t.classToNum
    case ClassToOnehot => key in t.classToOnehot
  }

  /** The image has a class and that class is in all three per-class tables. */
  predicate Resolvable(t: LabelTables, name: string) {
    && name in t.imageToClass
    && t.imageToClass[name] in t.classToAttributes
    && t.imageToClass[name] in t.classToNum
    && t.imageToClass[name] in t.classToOnehot
  }

  /** The four dictionary lookups of one iteration of the join loop, in the
      source's order: the image's class, then its attribute vector, numeric
      id and one-hot vector. The first missing key raises. */
  function Lookup(t: LabelTables, name: string): (r: Result<LabelRecord>)
    ensures r.Ok? <==> Resolvable(t, name)
    ensures r.Ok? ==>
              var cls := t.imageToClass[name];
              && r.value.attributeLabel == t.classToAttributes[cls]
              && r.value.numLabel == t.classToNum[cls]
              && r.value.onehotLabel == t.classToOnehot[cls]
    ensures r.Err? ==> r.error.KeyError? && !r.error.table.DataDict? && !HasKey(t, r.error.table, r.error.key)
    ensures name !in t.imageToClass ==> r == Err(KeyError(ImageToClass, name))
  {
    if name !in t.imageToClass then Err(KeyError(ImageToClass, name))
    else
      var cls := t.imageToClass[name];
      if cls !in t.classToAttributes then Err(KeyError(ClassToAttributes, cls))
      else if cls !in t.classToNum then Err(KeyError(ClassToNum, cls))
      else if cls !in t.classToOnehot then Err(KeyError(ClassToOnehot, cls))
      else Ok(LabelRecord(t.classToAttributes[cls], t.classToNum[cls], t.classToOnehot[cls]))
  }
}
