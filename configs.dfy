/**
 * The configuration catalog of the Corrupted-MNIST adapter: the fixed list of
 * variant names, one builder configuration per name, and the loop that builds
 * the catalog.
 */
module Configs {

  /** The variant names, in catalog order: the pass-through `identity` and fifteen corruptions. */
  const CORRUPTIONS: seq<string> := [
    "identity",
    "shot_noise",
    "impulse_noise",
    "glass_blur",
    "motion_blur",
    "shear",
    "scale",
    "rotate",
    "brightness",
    "translate",
    "stripe",
    "fog",
    "spatter",
    "dotted_line",
    "zigzag",
    "canny_edges"
  ]

  /** Fixed start of every configuration's description. */
  const DESCRIPTION_PREFIX: string := "Corruption method: "

  /**
   * One builder configuration. `name` and `description` are the keyword arguments
   * forwarded to the framework's base configuration; `corruption` is the field the
   * constructor sets from its `corruption_type` argument. The version is not modelled.
   */
  datatype Config = Config(name: string, description: string, corruption: string)

  /** The configuration built for one entry of the variant list. */
  function ConfigFor(corruption: string): (c: Config)
    ensures c.name == corruption && c.corruption == corruption
    ensures DESCRIPTION_PREFIX <= c.description
    ensures c.description[|DESCRIPTION_PREFIX|..] == corruption
  {
    Config(corruption, DESCRIPTION_PREFIX + corruption, corruption)
  }

  /** The list the building loop produces for `corruptions`: one configuration appended per entry. */
  function Catalog(corruptions: seq<string>): (configs: seq<Config>)
    ensures |configs| == |corruptions|
    ensures forall i :: 0 <= i < |corruptions| ==> configs[i] == ConfigFor(corruptions[i])
  {
    if corruptions == [] then []
    else Catalog(corruptions[..|corruptions| - 1]) + [ConfigFor(corruptions[|corruptions| - 1])]
  }

  /** The builder's class-level catalog, built once from the variant list. */
  const BUILDER_CONFIGS: seq<Config> := Catalog(CORRUPTIONS)

  /** Builds the catalog: start from an empty list and append one configuration per variant name. */
  method MakeBuilderConfigs() returns (configList: seq<Config>)
    ensures |configList| == |CORRUPTIONS|
    ensures forall i :: 0 <= i < |CORRUPTIONS| ==>
      configList[i].name == CORRUPTIONS[i] && configList[i].corruption == CORRUPTIONS[i]
      && configList[i].description == DESCRIPTION_PREFIX + CORRUPTIONS[i]
    ensures configList == BUILDER_CONFIGS
  {
    configList := [];
    for i := 0 to |CORRUPTIONS|
      invariant |configList| == i
      invariant forall j :: 0 <= j < i ==> configList[j] == ConfigFor(CORRUPTIONS[j])
    {
      var corruption := CORRUPTIONS[i];
      configList := configList + [ConfigFor(corruption)];
    }
  }

  /** The variant names are pairwise distinct. */
  lemma CorruptionsDistinct()
    ensures forall i, j :: 0 <= i < j < |CORRUPTIONS| ==> CORRUPTIONS[i] != CORRUPTIONS[j]
  {
  }

  /** Distinct variant names give distinct configuration names. */
  lemma {:induction false} CatalogNamesUnique(corruptions: seq<string>)
    requires forall i, j :: 0 <= i < j < |corruptions| ==> corruptions[i] != corruptions[j]
    ensures forall i, j :: 0 <= i < |corruptions| && 0 <= j < |corruptions| && i != j ==>
      Catalog(corruptions)[i].name != Catalog(corruptions)[j].name
  {
  }

  /**
   * The builder's catalog: sixteen configurations, one per variant name in list
   * order, each named after its corruption, described as the prefix followed by
   * that name, and no two sharing a name.
   */
  lemma BuilderConfigsFacts()
    ensures |BUILDER_CONFIGS| == 16
    ensures forall i :: 0 <= i < 16 ==>
      BUILDER_CONFIGS[i].name == BUILDER_CONFIGS[i].corruption == CORRUPTIONS[i]
      && BUILDER_CONFIGS[i].description == DESCRIPTION_PREFIX + CORRUPTIONS[i]
    ensures forall i, j :: 0 <= i < 16 && 0 <= j < 16 && i != j ==>
      BUILDER_CONFIGS[i].name != BUILDER_CONFIGS[j].name
    ensures forall c :: c in BUILDER_CONFIGS ==> c.corruption in CORRUPTIONS
  {
    CorruptionsDistinct();
    CatalogNamesUnique(CORRUPTIONS);
  }

  /**
   * The catalog's sixteen entries are the pass-through `identity` followed by
   * fifteen genuine corruptions.
   */
  lemma CatalogIsIdentityPlusFifteen()
    ensures BUILDER_CONFIGS[0].corruption == "identity"
    ensures |BUILDER_CONFIGS[1..]| == 15
    ensures forall c :: c in BUILDER_CONFIGS[1..] ==> c.corruption != "identity"
  {
    CorruptionsDistinct();
  }
}
