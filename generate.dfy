/**
 * Example generation of the Corrupted-MNIST adapter: the files of the chosen
 * split are read, and images and labels are paired position by position, each
 * pair keyed by its position.
 */
module Examples {
  import opened Wrappers
  import opened Configs
  import opened Splits

  /** One example's features: an image (opaque here) and its integer class label (`label` is a Dafny keyword, hence `classLabel`). */
  datatype Record<Image> = Record(image: Image, classLabel: int)

  /** One generated item: the example's key and its features. */
  datatype Example<Image> = Example(key: nat, record: Record<Image>)

  /** Why a generation call fails: reading (opening or decoding) the named file failed. */
  datatype LoadError = ReadFailed(path: string)

  function Min(a: int, b: int): int {
    if a <= b then a else b
  }

  /**
   * What enumerating the pairwise zip of `images` and `labels` yields, keys
   * counted from `start`: it stops at the end of the shorter sequence.
   */
  function EnumerateZip<Image>(images: seq<Image>, labels: seq<int>, start: nat): (examples: seq<Example<Image>>)
    ensures |examples| == Min(|images|, |labels|)
    ensures forall k :: 0 <= k < |examples| ==>
      examples[k] == Example(start + k, Record(images[k], labels[k]))
  {
    if images == [] || labels == [] then []
    else [Example(start, Record(images[0], labels[0]))] + EnumerateZip(images[1..], labels[1..], start + 1)
  }

  /** The keys of a run of examples, in order. */
  function KeysOf<Image>(examples: seq<Example<Image>>): seq<nat> {
    if examples == [] then [] else [examples[0].key] + KeysOf(examples[1..])
  }

  /** The images of a run of examples, in order. */
  function ImagesOf<Image>(examples: seq<Example<Image>>): seq<Image> {
    if examples == [] then [] else [examples[0].record.image] + ImagesOf(examples[1..])
  }

  /** The labels of a run of examples, in order. */
  function LabelsOf<Image>(examples: seq<Example<Image>>): seq<int> {
    if examples == [] then [] else [examples[0].record.classLabel] + LabelsOf(examples[1..])
  }

  /** The consecutive keys `start`, `start + 1`, ..., `start + n - 1`. */
  function Range(start: nat, n: nat): (r: seq<nat>)
    ensures |r| == n && forall k :: 0 <= k < n ==> r[k] == start + k
    decreases n
  {
    if n == 0 then [] else [start] + Range(start + 1, n - 1)
  }

  /**
   * Generates the examples of one split for `config`: picks the split's files from
   * the flag and the configuration's corruption, then reads and pairs them.
   */
  method GenerateExamples<Image>(config: Config, dataDir: string, isTrain: bool,
                                 readLabels: string -> Option<seq<int>>,
                                 readImages: string -> Option<seq<Image>>)
    returns (result: Result<seq<Example<Image>>, LoadError>)
    ensures result == ReadAndPairOutcome(SelectFiles(dataDir, config.corruption, isTrain), readLabels, readImages)
  {
    var corruption := config.corruption;
    var files := SelectFiles(dataDir, corruption, isTrain);
    result := ReadAndPair(files, readLabels, readImages);
  }

  /**
   * What one generation call over `files` produces: a failure naming the labels file
   * when reading it fails (it is read first), else a failure naming the images file
   * when reading that fails, else the enumerated pairs of the two arrays.
   */
  function ReadAndPairOutcome<Image>(files: SplitFiles,
                                     readLabels: string -> Option<seq<int>>,
                                     readImages: string -> Option<seq<Image>>): (result: Result<seq<Example<Image>>, LoadError>)
    ensures readLabels(files.labelsFile).None? ==> result == Failure(ReadFailed(files.labelsFile))
    ensures readLabels(files.labelsFile).Some? && readImages(files.imagesFile).None? ==>
      result == Failure(ReadFailed(files.imagesFile))
    ensures result.Success? <==> readLabels(files.labelsFile).Some? && readImages(files.imagesFile).Some?
    ensures result.Success? ==>
      var images := readImages(files.imagesFile).value;
      var labels := readLabels(files.labelsFile).value;
      && |result.value| == Min(|images|, |labels|)
      && forall k :: 0 <= k < |result.value| ==> result.value[k] == Example(k, Record(images[k], labels[k]))
  {
    match readLabels(files.labelsFile)
    case None => Failure(ReadFailed(files.labelsFile))
    case Some(labels) =>
      match readImages(files.imagesFile)
      case None => Failure(ReadFailed(files.imagesFile))
      case Some(images) => Success(EnumerateZip(images, labels, 0))
  }

  /** Reads the labels file, then the images file, and pairs their entries. */
  method ReadAndPair<Image>(files: SplitFiles,
                            readLabels: string -> Option<seq<int>>,
                            readImages: string -> Option<seq<Image>>)
    returns (result: Result<seq<Example<Image>>, LoadError>)
    ensures result == ReadAndPairOutcome(files, readLabels, readImages)
  {
    var loadedLabels := readLabels(files.labelsFile);
    if loadedLabels.None? {
      return Failure(ReadFailed(files.labelsFile));
    }
    var loadedImages := readImages(files.imagesFile);
    if loadedImages.None? {
      return Failure(ReadFailed(files.imagesFile));
    }
    var examples := PairExamples(loadedImages.value, loadedLabels.value);
    return Success(examples);
  }

  /**
   * The generator's loop over `enumerate(zip(images, labels))`: the k-th example
   * has key k and holds the k-th image and the k-th label; it stops at the end of
   * the shorter sequence.
   */
  method PairExamples<Image>(images: seq<Image>, labels: seq<int>) returns (examples: seq<Example<Image>>)
    ensures |examples| == Min(|images|, |labels|)
    ensures forall k :: 0 <= k < |examples| ==> examples[k] == Example(k, Record(images[k], labels[k]))
    ensures examples == EnumerateZip(images, labels, 0)
  {
    examples := [];
    var i := 0;
    while i < |images| && i < |labels|
      invariant i <= |images| && i <= |labels|
      invariant |examples| == i
      invariant forall k :: 0 <= k < i ==> examples[k] == Example(k, Record(images[k], labels[k]))
    {
      examples := examples + [Example(i, Record(images[i], labels[i]))];
      i := i + 1;
    }
  }

  /** The yielded keys run from `start` upwards, one per example, with no gap and no repeat. */
  lemma {:induction false} UnzipKeys<Image>(images: seq<Image>, labels: seq<int>, start: nat)
    ensures KeysOf(EnumerateZip(images, labels, start)) == Range(start, Min(|images|, |labels|))
  {
    if images != [] && labels != [] {
      var examples := EnumerateZip(images, labels, start);
      assert examples[1..] == EnumerateZip(images[1..], labels[1..], start + 1);
      UnzipKeys(images[1..], labels[1..], start + 1);
    }
  }

  /** The yielded images are the first `n` images, in file order. */
  lemma {:induction false} UnzipImages<Image>(images: seq<Image>, labels: seq<int>, start: nat)
    ensures ImagesOf(EnumerateZip(images, labels, start)) == images[..Min(|images|, |labels|)]
  {
    if images != [] && labels != [] {
      var examples := EnumerateZip(images, labels, start);
      assert examples[1..] == EnumerateZip(images[1..], labels[1..], start + 1);
      UnzipImages(images[1..], labels[1..], start + 1);
      var n := Min(|images|, |labels|);
      assert images[..n] == [images[0]] + images[1..][..n - 1];
    }
  }

  /** The yielded labels are the first `n` labels, in file order. */
  lemma {:induction false} UnzipLabels<Image>(images: seq<Image>, labels: seq<int>, start: nat)
    ensures LabelsOf(EnumerateZip(images, labels, start)) == labels[..Min(|images|, |labels|)]
  {
    if images != [] && labels != [] {
      var examples := EnumerateZip(images, labels, start);
      assert examples[1..] == EnumerateZip(images[1..], labels[1..], start + 1);
      UnzipLabels(images[1..], labels[1..], start + 1);
      var n := Min(|images|, |labels|);
      assert labels[..n] == [labels[0]] + labels[1..][..n - 1];
    }
  }

  /** When the two files hold equally many entries, every image and every label is yielded, in file order. */
  lemma EqualLengthsRoundTrip<Image>(images: seq<Image>, labels: seq<int>)
    requires |images| == |labels|
    ensures ImagesOf(EnumerateZip(images, labels, 0)) == images
    ensures LabelsOf(EnumerateZip(images, labels, 0)) == labels
    ensures KeysOf(EnumerateZip(images, labels, 0)) == Range(0, |labels|)
  {
    UnzipKeys(images, labels, 0);
    UnzipImages(images, labels, 0);
    UnzipLabels(images, labels, 0);
    assert images[..|images|] == images;
    assert labels[..|labels|] == labels;
  }

  /**
   * A length mismatch is not an error: the surplus entries of the longer file are
   * dropped and the rest is paired exactly as if both files had the shorter length.
   */
  lemma TruncationDropsSurplus<Image>(images: seq<Image>, labels: seq<int>)
    ensures var n := Min(|images|, |labels|);
      EnumerateZip(images, labels, 0) == EnumerateZip(images[..n], labels[..n], 0)
  {
  }

  /**
   * A consumer that stops after `m` examples has seen exactly what generating from
   * the first `m` entries of both files yields.
   */
  lemma PrefixOfGeneration<Image>(images: seq<Image>, labels: seq<int>, m: nat)
    requires m <= Min(|images|, |labels|)
    ensures EnumerateZip(images, labels, 0)[..m] == EnumerateZip(images[..m], labels[..m], 0)
  {
  }
}
