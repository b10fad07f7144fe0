/**
 * Split wiring of the Corrupted-MNIST adapter: the two split descriptors built
 * from the extracted archive's root, and the choice of the images and labels
 * files a split reads for one corruption.
 */
module Splits {
  import opened Paths
  import opened Configs

  /** Directory of the extracted archive holding one sub-directory per corruption. */
  const DIR_NAME: string := "mnist_c"
  const TRAIN_IMAGES_FILENAME: string := "train_images.npy"
  const TEST_IMAGES_FILENAME: string := "test_images.npy"
  const TRAIN_LABELS_FILENAME: string := "train_labels.npy"
  const TEST_LABELS_FILENAME: string := "test_labels.npy"

  /** The framework's split names. */
  datatype SplitName = Train | Test {
    /** The split's string value, as the framework spells it. */
    function ToString(): string {
      match this
      case Train => "train"
      case Test => "test"
    }
  }

  /** A split descriptor: the split's name and the keyword arguments its generator is called with. */
  datatype SplitGenerator = SplitGenerator(name: SplitName, dataDir: string, isTrain: bool)

  /** The images and labels files one generation call reads. */
  datatype SplitFiles = SplitFiles(imagesFile: string, labelsFile: string)

  /**
   * The split list for an extracted archive rooted at `path`: a training split then
   * a test split, each flagged accordingly and both reading under `path/mnist_c`.
   */
  function SplitGenerators(path: string): (splits: seq<SplitGenerator>)
    ensures |splits| == 2 && splits[0].name == Train && splits[1].name == Test
    ensures forall s :: s in splits ==> (s.isTrain <==> s.name == Train)
    ensures forall s :: s in splits ==> s.dataDir == Join(path, DIR_NAME)
  {
    [ SplitGenerator(Train, Join(path, DIR_NAME), true),
      SplitGenerator(Test, Join(path, DIR_NAME), false) ]
  }

  /**
   * The files a generation call reads for `corruption`: the train pair when
   * `isTrain` holds, the test pair otherwise, both in `dataDir/corruption`.
   */
  function SelectFiles(dataDir: string, corruption: string, isTrain: bool): (files: SplitFiles)
    ensures BaseName(files.imagesFile) == if isTrain then TRAIN_IMAGES_FILENAME else TEST_IMAGES_FILENAME
    ensures BaseName(files.labelsFile) == if isTrain then TRAIN_LABELS_FILENAME else TEST_LABELS_FILENAME
    ensures DirPart(files.imagesFile) == DirPart(files.labelsFile) == DirPrefix(Join(dataDir, corruption))
  {
    var dir := Join(dataDir, corruption);
    JoinSplitsBack(dir, TRAIN_IMAGES_FILENAME);
    JoinSplitsBack(dir, TRAIN_LABELS_FILENAME);
    JoinSplitsBack(dir, TEST_IMAGES_FILENAME);
    JoinSplitsBack(dir, TEST_LABELS_FILENAME);
    if isTrain then
      SplitFiles(Join(dir, TRAIN_IMAGES_FILENAME), Join(dir, TRAIN_LABELS_FILENAME))
    else
      SplitFiles(Join(dir, TEST_IMAGES_FILENAME), Join(dir, TEST_LABELS_FILENAME))
  }

  /**
   * The four files of one corruption are four different paths: images differ from
   * labels, and the train pair differs from the test pair.
   */
  lemma SelectedFilesDiffer(dataDir: string, corruption: string)
    ensures SelectFiles(dataDir, corruption, true).imagesFile != SelectFiles(dataDir, corruption, true).labelsFile
    ensures SelectFiles(dataDir, corruption, false).imagesFile != SelectFiles(dataDir, corruption, false).labelsFile
    ensures SelectFiles(dataDir, corruption, true) != SelectFiles(dataDir, corruption, false)
  {
    FilenamesDistinct();
    var train := SelectFiles(dataDir, corruption, true);
    var test := SelectFiles(dataDir, corruption, false);
    assert BaseName(train.imagesFile) != BaseName(train.labelsFile);
    assert BaseName(test.imagesFile) != BaseName(test.labelsFile);
    assert BaseName(train.imagesFile) != BaseName(test.imagesFile);
  }

  /** The four file names are different from each other. */
  lemma FilenamesDistinct()
    ensures TRAIN_IMAGES_FILENAME != TRAIN_LABELS_FILENAME
    ensures TEST_IMAGES_FILENAME != TEST_LABELS_FILENAME
    ensures TRAIN_IMAGES_FILENAME != TEST_IMAGES_FILENAME
  {
    assert TRAIN_IMAGES_FILENAME[6] != TRAIN_LABELS_FILENAME[6];
    assert TEST_IMAGES_FILENAME[5] != TEST_LABELS_FILENAME[5];
    assert TRAIN_IMAGES_FILENAME[1] != TEST_IMAGES_FILENAME[1];
  }

  /** Concatenation regroups freely. */
  lemma ConcatAssociative(a: string, b: string, c: string)
    ensures a + (b + c) == a + b + c
  {
  }

  /** Each file name is the split's name, an `_images` or `_labels` suffix and the `.npy` extension. */
  lemma FilenamesBySplit()
    ensures TRAIN_IMAGES_FILENAME == Train.ToString() + "_images.npy"
    ensures TRAIN_LABELS_FILENAME == Train.ToString() + "_labels.npy"
    ensures TEST_IMAGES_FILENAME == Test.ToString() + "_images.npy"
    ensures TEST_LABELS_FILENAME == Test.ToString() + "_labels.npy"
  {
  }

  /**
   * With a root that is non-empty and does not end in a separator, and a corruption
   * name that is non-empty and has no separator, the selected files are
   * `<dataDir>/<corruption>/<split>_images.npy` and `<dataDir>/<corruption>/<split>_labels.npy`.
   */
  lemma SelectFilesConcatenated(dataDir: string, corruption: string, split: SplitName)
    requires dataDir != [] && dataDir[|dataDir| - 1] != SEP
    requires corruption != [] && SEP !in corruption
    ensures SelectFiles(dataDir, corruption, split == Train)
      == SplitFiles(dataDir + "/" + corruption + "/" + split.ToString() + "_images.npy",
                    dataDir + "/" + corruption + "/" + split.ToString() + "_labels.npy")
  {
    FilenamesBySplit();
    var images := split.ToString() + "_images.npy";
    var labels := split.ToString() + "_labels.npy";
    var dir := Join(dataDir, corruption);
    assert dir == dataDir + "/" + corruption by {
      assert corruption[0] in corruption;
      JoinIsConcatenation(dataDir, corruption);
    }
    assert dir[|dir| - 1] != SEP by {
      assert dir[|dir| - 1] == corruption[|corruption| - 1] && corruption[|corruption| - 1] in corruption;
    }
    var files := SelectFiles(dataDir, corruption, split == Train);
    assert files == SplitFiles(Join(dir, images), Join(dir, labels));
    JoinIsConcatenation(dir, images);
    JoinIsConcatenation(dir, labels);
    var prefix := dir + "/";
    ConcatAssociative(prefix, split.ToString(), "_images.npy");
    ConcatAssociative(prefix, split.ToString(), "_labels.npy");
  }

  /**
   * Every split of the list reads, for every catalog configuration, the files
   * named after that split under `path/mnist_c/<configuration's corruption>`.
   */
  lemma SplitFilesMatchSplitName(path: string, s: SplitGenerator, c: Config)
    requires s in SplitGenerators(path)
    requires c in BUILDER_CONFIGS
    ensures var files := SelectFiles(s.dataDir, c.corruption, s.isTrain);
      && BaseName(files.imagesFile) == s.name.ToString() + "_images.npy"
      && BaseName(files.labelsFile) == s.name.ToString() + "_labels.npy"
      && DirPart(files.imagesFile) == DirPrefix(Join(Join(path, DIR_NAME), c.name))
  {
    FilenamesBySplit();
    var i :| 0 <= i < |BUILDER_CONFIGS| && BUILDER_CONFIGS[i] == c;
    assert c.name == c.corruption;
    assert s.dataDir == Join(path, DIR_NAME);
    assert s.isTrain <==> s.name == Train;
  }

  /** Every variant name is non-empty and free of separators. */
  lemma CorruptionNamesArePlain()
    ensures forall i :: 0 <= i < |CORRUPTIONS| ==> CORRUPTIONS[i] != [] && SEP !in CORRUPTIONS[i]
  {
  }

  /**
   * For every split of the list and every catalog configuration, the selected files
   * are `<data_dir>/<corruption>/<split>_images.npy` and `..._labels.npy` with one `/`
   * between the parts, whatever the extracted root `path` is.
   */
  lemma AdapterJoinsAreConcatenations(path: string, s: SplitGenerator, c: Config)
    requires s in SplitGenerators(path)
    requires c in BUILDER_CONFIGS
    ensures SelectFiles(s.dataDir, c.corruption, s.isTrain)
      == SplitFiles(s.dataDir + "/" + c.corruption + "/" + s.name.ToString() + "_images.npy",
                    s.dataDir + "/" + c.corruption + "/" + s.name.ToString() + "_labels.npy")
  {
    var dataDir := Join(path, DIR_NAME);
    assert s.dataDir == dataDir;
    assert dataDir[|dataDir| - 1] == DIR_NAME[|DIR_NAME| - 1] != SEP;
    var i :| 0 <= i < |BUILDER_CONFIGS| && BUILDER_CONFIGS[i] == c;
    CorruptionNamesArePlain();
    assert c.corruption == CORRUPTIONS[i];
    assert s.isTrain <==> s.name == Train;
    SelectFilesConcatenated(dataDir, c.corruption, s.name);
  }
}
