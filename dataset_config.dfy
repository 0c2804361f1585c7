/**
 * The static, process-wide dataset configuration: one frozen record per
 * dataset and a lookup that fails on an unknown name.
 */
module DatasetConfigs {
  import opened Values
  import opened Seqs

  /** A dataset's structure; the last two fields have defaults. */
  datatype DatasetConfig = DatasetConfig(
    csvFilename: string,
    table: string,
    keyField: string,
    titleField: string,
    themeField: string,
    subthemeField: Option<string>,
    descriptionField: string,
    aiFunctions: seq<string>,
    categoryField: Option<string> := None,
    themeDelimiter: Option<string> := Some(","))

  const Issues := DatasetConfig(
    csvFilename := "issues.csv",
    table := "issues_raw",
    keyField := "issue_id",
    titleField := "issue_title",
    categoryField := Some("issues_type"),
    themeField := "risk_theme",
    subthemeField := Some("risk_subtheme"),
    descriptionField := "issue_title",
    aiFunctions := ["issue_taxonomy", "root_cause", "enrichment", "slow_enrichment"])

  const Controls := DatasetConfig(
    csvFilename := "controls.csv",
    table := "controls_raw",
    keyField := "control_id",
    titleField := "control_title",
    categoryField := Some("key_control"),
    themeField := "risk_theme",
    subthemeField := Some("risk_subtheme"),
    descriptionField := "control_title",
    aiFunctions := ["controls_taxonomy", "root_cause", "enrichment", "slow_enrichment"])

  const ExternalLoss := DatasetConfig(
    csvFilename := "external_loss.csv",
    table := "external_loss_raw",
    keyField := "reference_id_code",
    titleField := "description_of_event",
    categoryField := Some("parent_name"),
    themeField := "risk_theme",
    subthemeField := Some("risk_subtheme"),
    descriptionField := "description_of_event",
    aiFunctions := ["issue_taxonomy", "root_cause", "enrichment", "slow_enrichment"])

  const InternalLoss := DatasetConfig(
    csvFilename := "internal_loss.csv",
    table := "internal_loss_raw",
    keyField := "event_id",
    titleField := "event_title",
    categoryField := Some("event_type"),
    themeField := "risk_theme",
    subthemeField := Some("risk_subtheme"),
    descriptionField := "event_title",
    aiFunctions := ["issue_taxonomy", "root_cause", "enrichment", "slow_enrichment"])

  /** The dataset names in the dict's insertion order. */
  const DatasetNames: seq<string> := ["issues", "controls", "external_loss", "internal_loss"]

  /** `DATASET_CONFIG`. */
  const Configs: map<string, DatasetConfig> := map[
    "issues" := Issues,
    "controls" := Controls,
    "external_loss" := ExternalLoss,
    "internal_loss" := InternalLoss]

  /**
   * `get_dataset_config`: the configuration of a known dataset, a ValueError
   * for any other name.
   */
  function GetDatasetConfig(dataset: string): (r: Result<DatasetConfig, Error>)
    ensures r.Success? <==> dataset in DatasetNames
    ensures r.Failure? ==> r.error == UnknownDataset(dataset)
    ensures r.Success? ==> r.value == Configs[dataset]
    ensures r.Success? ==> r.value.table == dataset + "_raw"
    ensures r.Success? ==> |r.value.aiFunctions| == 4 && Distinct(r.value.aiFunctions)
    ensures r.Success? ==> r.value.subthemeField.Some? && r.value.categoryField.Some?
  {
    if dataset in Configs then
      ConfigsInvariant(dataset);
      Success(Configs[dataset])
    else Failure(UnknownDataset(dataset))
  }

  /** What every configured dataset has in common. */
  ghost predicate Sound(name: string, c: DatasetConfig) {
    && c.table == name + "_raw"
    && |c.aiFunctions| == 4
    && Distinct(c.aiFunctions)
    && c.subthemeField.Some?
    && c.categoryField.Some?
    && c.themeDelimiter == Some(",")
  }

  /**
   * Each configured table is `<dataset>_raw`, each dataset lists four distinct
   * AI function names, and the keys of the dict are exactly the four names.
   */
  lemma ConfigsInvariant(name: string)
    ensures name in Configs <==> name in DatasetNames
    ensures name in Configs ==> Sound(name, Configs[name])
  {
  }

  /** A configuration built without the two optional fields gets their defaults. */
  lemma Defaults(csv: string, table: string, key: string, title: string, theme: string,
                 sub: Option<string>, desc: string, fns: seq<string>)
    ensures DatasetConfig(csv, table, key, title, theme, sub, desc, fns).categoryField == None
    ensures DatasetConfig(csv, table, key, title, theme, sub, desc, fns).themeDelimiter == Some(",")
  {
  }

  /** The dataset names are distinct, so every dataset is ingested once. */
  lemma DatasetNamesDistinct()
    ensures Distinct(DatasetNames)
    ensures Elems(DatasetNames) == Configs.Keys
  {
  }
}
