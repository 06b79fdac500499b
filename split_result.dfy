/** The result of a train/validation/test split: three lists that hold the dataset's own
    instance objects (the lists are new, the instances are shared). */
module SplitResults {
  import opened Instances

  /** The three getters return the constructor's lists as given; no field is ever reassigned,
      so the triple is a value. */
  datatype SplitResult = SplitResult(trainSet: seq<Instance>, validationSet: seq<Instance>, testSet: seq<Instance>)
}
