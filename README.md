# Corrupted-MNIST dataset adapter, modelled in Dafny

This project models the sequential logic of the Corrupted-MNIST (MNIST-C) dataset
builder in `tensorflow_datasets/image_classification/mnist_corrupted.py`. The builder exposes a statically hosted archive of corrupted
MNIST images as sixteen selectable variants. It does three things that the model covers:

- **Configuration catalog** (`configs.dfy`, module `Configs`). The variant list
  `_CORRUPTIONS` holds `identity` and fifteen corruptions. `_make_builder_configs`
  appends one configuration per entry. Each configuration's `name` and `corruption`
  are the entry itself. Its description is `Corruption method: ` followed by the entry.
  A configuration is a value (`datatype Config`). The building loop is the method
  `MakeBuilderConfigs`, proved against the recursive specification `Catalog`.
- **Split wiring and file selection** (`splits.dfy`, module `Splits`).
  `_split_generators` turns the extracted archive root into a `train` split
  (`is_train` true) and a `test` split (`is_train` false). Both read under
  `<root>/mnist_c`. `_generate_examples` picks the `train_*` or `test_*` images and
  labels files under `<data_dir>/<corruption>/`.
- **Record pairing** (`generate.dfy`, module `Examples`). `enumerate(zip(images, labels))`
  yields the k-th image with the k-th label under key k. It stops at the shorter
  array, so a length mismatch is truncated silently. The generator loop is the method
  `PairExamples`, proved against the recursive specification `EnumerateZip`.

`os.path.join` is modelled as POSIX `posixpath.join` in `paths.dfy` (module `Paths`).
An absolute second component replaces the first. Otherwise exactly one `/` is put
between the parts, unless the first part is empty or already ends in `/`.
`AdapterJoinsAreConcatenations` shows that the joins at lines 177-181 are plain
`a + "/" + b`, whatever the extracted root is: `data_dir` always ends in `mnist_c`,
and every variant name is non-empty and free of `/`. The join at line 151 takes the
root from the download step, so its result depends on how that root is written.
`wrappers.dfy` holds `Option` and `Result`.

Where the prose around the code and the code disagree, the model follows the code:

- The docstring of `_make_builder_configs` (lines 94-98) speaks of 15 configurations.
  The list at lines 51-68 has 16: `identity` plus 15 corruptions.
  `CatalogIsIdentityPlusFifteen` states exactly that.
- The docstring of `_generate_examples` (line 165) says corruptions are applied.
  The code applies none: it pairs pre-corrupted arrays read from files.
- An images/labels length mismatch raises no error. `zip` truncates to the shorter
  array, and `TruncationDropsSurplus` states it.

## Model

| member | source | states |
|---|---|---|
| Paths.Join | tensorflow_datasets/image_classification/mnist_corrupted.py:151 | posixpath.join: an absolute second part is the result; otherwise the result is the first part followed by the second when the first is empty or ends in "/", and the first part, one "/" and the second part otherwise |
| Paths.JoinSplitsBack | tensorflow_datasets/image_classification/mnist_corrupted.py:177-178 | a separator-free name joined onto a directory comes back as the base name, and the directory part is the directory with one trailing separator |
| Paths.JoinIsConcatenation | tensorflow_datasets/image_classification/mnist_corrupted.py:151 | for a non-empty first part not ending in a separator and a relative second part, join is concatenation with "/" |
| Configs.ConfigFor | tensorflow_datasets/image_classification/mnist_corrupted.py:102-110 | the configuration built for an entry has name and corruption equal to the entry, and a description made of the fixed prefix followed by the entry |
| Configs.Catalog | tensorflow_datasets/image_classification/mnist_corrupted.py:100-111 | the list built from the variant names has one configuration per name, the i-th built from the i-th name |
| Configs.MakeBuilderConfigs | tensorflow_datasets/image_classification/mnist_corrupted.py:91-111 | the loop returns 16 configurations, in list order, each named after its entry, its corruption being that entry, described as prefix + entry; it equals the class catalog |
| Configs.CorruptionsDistinct | tensorflow_datasets/image_classification/mnist_corrupted.py:51-68 | the sixteen variant names are pairwise distinct |
| Configs.CatalogNamesUnique | tensorflow_datasets/image_classification/mnist_corrupted.py:101-104 | distinct variant names give configurations with distinct names |
| Configs.BuilderConfigsFacts | tensorflow_datasets/image_classification/mnist_corrupted.py:116 | the class catalog has 16 entries; entry i has name = corruption = variant i and description prefix + variant i; names are unique; every corruption is in the variant list |
| Configs.CatalogIsIdentityPlusFifteen | tensorflow_datasets/image_classification/mnist_corrupted.py:51-68 | the catalog is the identity configuration followed by fifteen configurations none of which is identity |
| Splits.SplitGenerators | tensorflow_datasets/image_classification/mnist_corrupted.py:147-160 | exactly two splits, train then test; is_train holds exactly for the train split; both read from join(path, "mnist_c") |
| Splits.SelectFiles | tensorflow_datasets/image_classification/mnist_corrupted.py:176-181 | the flag picks the train or test file names; both files lie in the same directory join(data_dir, corruption) and differ only in their base name |
| Splits.FilenamesDistinct | tensorflow_datasets/image_classification/mnist_corrupted.py:70-73 | the train images, train labels and test images file names differ |
| Splits.SelectedFilesDiffer | tensorflow_datasets/image_classification/mnist_corrupted.py:176-181 | for one corruption, the images and labels files differ, and the train pair differs from the test pair |
| Splits.FilenamesBySplit | tensorflow_datasets/image_classification/mnist_corrupted.py:70-73 | each file name is the split's name, then "_images" or "_labels", then ".npy" |
| Splits.SelectFilesConcatenated | tensorflow_datasets/image_classification/mnist_corrupted.py:176-181 | for a plain root and corruption name the files are root/corruption/split_images.npy and root/corruption/split_labels.npy |
| Splits.CorruptionNamesArePlain | tensorflow_datasets/image_classification/mnist_corrupted.py:51-68 | every variant name is non-empty and contains no "/" |
| Splits.AdapterJoinsAreConcatenations | tensorflow_datasets/image_classification/mnist_corrupted.py:176-181 | for every split of the list and every catalog configuration, the files read are data_dir/corruption/split_images.npy and data_dir/corruption/split_labels.npy, for any extracted root |
| Splits.SplitFilesMatchSplitName | tensorflow_datasets/image_classification/mnist_corrupted.py:147-160 | for every split of the list and every catalog configuration, the files read are named after the split and lie under path/mnist_c/<configuration name> |
| Examples.EnumerateZip | tensorflow_datasets/image_classification/mnist_corrupted.py:189-193 | the enumerated zip has min(len images, len labels) items; item k has key start + k and holds images[k] and labels[k] |
| Examples.PairExamples | tensorflow_datasets/image_classification/mnist_corrupted.py:189-193 | the generator loop yields min(len images, len labels) examples, the k-th with key k, images[k] and labels[k] |
| Examples.ReadAndPairOutcome | tensorflow_datasets/image_classification/mnist_corrupted.py:183-193 | a failed labels read fails the call naming the labels file; otherwise a failed images read fails it naming the images file; success exactly when both reads succeed, then the pairs in order |
| Examples.ReadAndPair | tensorflow_datasets/image_classification/mnist_corrupted.py:183-193 | reads labels first, then images, then pairs them, with the outcome above |
| Examples.GenerateExamples | tensorflow_datasets/image_classification/mnist_corrupted.py:162-193 | a generation call reads the files selected from the flag and the configuration's corruption, with the outcome above |
| Examples.UnzipKeys | tensorflow_datasets/image_classification/mnist_corrupted.py:189 | the keys yielded are start, start + 1, ..., start + n - 1 with n the shorter length: no gap, no repeat |
| Examples.UnzipImages | tensorflow_datasets/image_classification/mnist_corrupted.py:189-191 | the images yielded, in order, are the first n images |
| Examples.UnzipLabels | tensorflow_datasets/image_classification/mnist_corrupted.py:189-192 | the labels yielded, in order, are the first n labels |
| Examples.EqualLengthsRoundTrip | tensorflow_datasets/image_classification/mnist_corrupted.py:189-193 | when both arrays have the same length, every image and label comes back in file order, with keys 0 to n - 1 |
| Examples.TruncationDropsSurplus | tensorflow_datasets/image_classification/mnist_corrupted.py:189 | a length mismatch is no error: the result is that of both arrays cut to the shorter length |
| Examples.PrefixOfGeneration | tensorflow_datasets/image_classification/mnist_corrupted.py:189-193 | the first m examples are what generating from the first m entries of both arrays yields |

## Left out

- The archive download (`dl_manager.download_and_extract`, line 146) and the URL constant: network and archive I/O. `SplitGenerators` takes the extracted root as a parameter. Nothing is assumed about that root: if it is empty or ends in `/`, `data_dir` is the root followed directly by `mnist_c`, as `Join` states.
- The file reads (`tf.io.gfile.GFile` and `np.load`, lines 183-187) are function parameters `string -> Option<seq<...>>`. `None` stands for any exception they raise. The model does not distinguish a missing file from a malformed one.
- Examples.GenerateExamples: the result is the whole list of examples, not a lazy generator. `PrefixOfGeneration` covers a consumer that stops early.
- `_info` and its `DatasetInfo`, features, supervised keys, homepage and citation (lines 118-135): declarative metadata. Image shape and label range are checked by the framework, not by this code, so no such property is claimed.
- `tfds.core.Version`, the `BuilderConfig` base class and `disallow_positional_args` (lines 79, 87, 105-107): library internals. Only the fields this code sets are kept.
- Pixel contents and dtypes: an image is an opaque type parameter, and a label is an `int`.
- `os.path.join` on non-POSIX platforms (Windows separators and drives) is not modelled.
