/**
 * The labeler's configuration and its loader (`LabelConfig`, `Config` and
 * `Config.load` in src/ai_labeler/ai.py). The loader starts from what the YAML
 * parser produced, or from the fact that the configuration file does not exist.
 *
 * Python does not check the types a dataclass is built with, so the fields hold
 * whatever value the document supplied; the documented shapes (a string, a
 * boolean) are the common case, not a guarantee.
 */
module LabelerConfig {
  import opened Wrappers
  import opened Yaml

  /** Guidance for one label; `instructions` is `YNull` (Python's None) when unset. */
  datatype LabelConfig = LabelConfig(description: YamlValue, instructions: YamlValue)

  datatype Config = Config(instructions: YamlValue, strictLabels: YamlValue, labels: map<string, LabelConfig>)

  /** What reading the configuration file gave: no file, or a parsed document. */
  datatype ConfigSource = FileNotFound | Parsed(data: YamlValue)

  /** Why `LabelConfig(**cfg)` raises a TypeError. */
  datatype KeywordError = UnexpectedKeyword | MissingDescription

  /** The exceptions that escape the loader. */
  datatype LoadError =
    | TopLevelNotMapping   // the document is not a mapping: it has no `get`
    | LabelsNotMapping     // the `labels` value is not a mapping: it has no `items`
    | InvalidLabelEntry    // some `labels` entry is a mapping `LabelConfig` rejects

  const DescriptionKey := "description"
  const InstructionsKey := "instructions"
  const StrictLabelsKey := "strict_labels"
  const LabelsKey := "labels"

  /** The keyword parameters of `LabelConfig`'s generated constructor. */
  const LabelConfigFields: set<string> := {DescriptionKey, InstructionsKey}

  /** The configuration used when there is no configuration file. */
  function DefaultConfig(): (r: Config)
    ensures r.instructions == YStr("") && !Truthy(r.strictLabels) && r.labels == map[]
  {
    Config(YStr(""), YBool(false), map[])
  }

  /**
   * `LabelConfig(**kw)`: every key must name a field, `description` is required
   * and `instructions` defaults to None. A keyword the constructor cannot bind is
   * reported before a missing one, as Python's argument binding does; for the key
   * `self` Python's message speaks of a repeated argument, but it is the same
   * TypeError.
   */
  function FromKeywords(kw: map<string, YamlValue>): (r: Result<LabelConfig, KeywordError>)
    ensures r.Ok? <==> kw.Keys <= LabelConfigFields && DescriptionKey in kw
    ensures r == Err(UnexpectedKeyword) <==> !(kw.Keys <= LabelConfigFields)
    ensures r.Ok? ==> r.value.description == kw[DescriptionKey]
    ensures r.Ok? && InstructionsKey in kw ==> r.value.instructions == kw[InstructionsKey]
    ensures r.Ok? && InstructionsKey !in kw ==> r.value.instructions == YNull
  {
    if exists k | k in kw :: k !in LabelConfigFields then Err(UnexpectedKeyword)
    else if DescriptionKey !in kw then Err(MissingDescription)
    else Ok(LabelConfig(kw[DescriptionKey], Get(kw, InstructionsKey, YNull)))
  }

  /** One `labels` entry in either form: a mapping of keywords, or any other value as the description. */
  function LabelConfigOf(entry: YamlValue): Result<LabelConfig, KeywordError>
  {
    match entry
    case YMap(kw) => FromKeywords(kw)
    case _ => Ok(LabelConfig(entry, YNull))
  }

  /** The dict comprehension over the `labels` mapping; it fails when any entry fails. */
  function ConvertLabels(entries: map<string, YamlValue>): (r: Result<map<string, LabelConfig>, LoadError>)
    ensures r.Ok? <==> forall name | name in entries :: LabelConfigOf(entries[name]).Ok?
    ensures r.Err? ==> r.error == InvalidLabelEntry
    ensures r.Ok? ==> r.value.Keys == entries.Keys
    ensures r.Ok? ==> forall name | name in entries :: r.value[name] == LabelConfigOf(entries[name]).value
  {
    if forall name | name in entries :: LabelConfigOf(entries[name]).Ok? then
      Ok(map name | name in entries :: LabelConfigOf(entries[name]).value)
    else
      Err(InvalidLabelEntry)
  }

  /** `Config.load` once the file has been opened and parsed, or found missing. */
  function Load(source: ConfigSource): (r: Result<Config, LoadError>)
    ensures source.FileNotFound? ==> r == Ok(Config(YStr(""), YBool(false), map[]))
    ensures source.Parsed? && !source.data.YMap? ==> r == Err(TopLevelNotMapping)
    ensures source.Parsed? && source.data.YMap? && LabelsKey in source.data.entries ==>
              (!source.data.entries[LabelsKey].YMap? ==> r == Err(LabelsNotMapping))
    ensures source.Parsed? && source.data.YMap? && LabelsKey !in source.data.entries ==> r.Ok?
  {
    match source
    case FileNotFound => Ok(DefaultConfig())
    case Parsed(data) =>
      if !data.YMap? then Err(TopLevelNotMapping)
      else
        var labels := Get(data.entries, LabelsKey, YMap(map[]));
        if !labels.YMap? then Err(LabelsNotMapping)
        else
          match ConvertLabels(labels.entries)
          case Err(e) => Err(e)
          case Ok(configs) =>
            Ok(Config(Get(data.entries, InstructionsKey, YStr("")),
                      Get(data.entries, StrictLabelsKey, YBool(false)),
                      configs))
  }

  /** Whether a document's `labels` value (absent or present) is accepted by the loader. */
  predicate LabelsAccepted(data: map<string, YamlValue>)
  {
    LabelsKey !in data
    || (data[LabelsKey].YMap?
        && forall name | name in data[LabelsKey].entries :: LabelConfigOf(data[LabelsKey].entries[name]).Ok?)
  }

  /** A mapping document loads exactly when its `labels` value does. */
  lemma LoadSucceeds(data: map<string, YamlValue>)
    ensures Load(Parsed(YMap(data))).Ok? <==> LabelsAccepted(data)
  {
  }

  /**
   * The top-level keys: present keys are copied as they are, absent ones take
   * their defaults, and the loaded label map has exactly the keys of the parsed one.
   */
  lemma LoadDefaults(data: map<string, YamlValue>, config: Config)
    requires Load(Parsed(YMap(data))) == Ok(config)
    ensures config.instructions == if InstructionsKey in data then data[InstructionsKey] else YStr("")
    ensures config.strictLabels == if StrictLabelsKey in data then data[StrictLabelsKey] else YBool(false)
    ensures LabelsKey !in data ==> config.labels == map[]
    ensures LabelsKey in data ==> data[LabelsKey].YMap? && config.labels.Keys == data[LabelsKey].entries.Keys
  {
  }

  /** A `labels` entry written as a scalar (or list) becomes the description, with no instructions. */
  lemma LoadScalarEntry(data: map<string, YamlValue>, name: string, config: Config)
    requires Load(Parsed(YMap(data))) == Ok(config)
    requires LabelsKey in data && data[LabelsKey].YMap? && name in data[LabelsKey].entries
    requires !data[LabelsKey].entries[name].YMap?
    ensures name in config.labels
    ensures config.labels[name] == LabelConfig(data[LabelsKey].entries[name], YNull)
  {
  }

  /** A `labels` entry written as a mapping takes its fields from that mapping's keys. */
  lemma LoadMappingEntry(data: map<string, YamlValue>, name: string, kw: map<string, YamlValue>, config: Config)
    requires Load(Parsed(YMap(data))) == Ok(config)
    requires LabelsKey in data && data[LabelsKey].YMap? && name in data[LabelsKey].entries
    requires data[LabelsKey].entries[name] == YMap(kw)
    ensures DescriptionKey in kw && kw.Keys <= LabelConfigFields
    ensures name in config.labels
    ensures config.labels[name].description == kw[DescriptionKey]
    ensures config.labels[name].instructions == if InstructionsKey in kw then kw[InstructionsKey] else YNull
  {
  }

  /** A mapping entry without `description`, or with a key that names no field, fails the whole load. */
  lemma LoadRejectsBadEntry(data: map<string, YamlValue>, name: string, kw: map<string, YamlValue>)
    requires LabelsKey in data && data[LabelsKey].YMap? && name in data[LabelsKey].entries
    requires data[LabelsKey].entries[name] == YMap(kw)
    requires DescriptionKey !in kw || !(kw.Keys <= LabelConfigFields)
    ensures Load(Parsed(YMap(data))) == Err(InvalidLabelEntry)
  {
  }

  /** An empty mapping loads as the same configuration as a missing file. */
  lemma EmptyDocumentIsDefault()
    ensures Load(Parsed(YMap(map[]))) == Load(FileNotFound)
  {
  }
}
