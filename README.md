# ai-labeler: configuration loading and label selection

A model of the repository-owned logic of the ai-labeler GitHub action
(`src/ai_labeler/ai.py`). The action labels a GitHub issue or pull request in
three stages. It loads a YAML configuration: global instructions, a
`strict_labels` flag, and per-label guidance. It merges that guidance into the
repository's labels. An AI agent then picks labels from a closed set of names.

- `wrappers.dfy`: `Result`, for the exceptions that escape the loader.
- `yaml.dfy`: `YamlValue`, the Python value a YAML document parses into
  (None, bool, int, str, list, string-keyed dict). Also Python truthiness
  (`Truthy`) and `dict.get` (`Get`).
- `config.dfy`: `LabelConfig`, `Config` and `Config.load`. It starts from a
  `ConfigSource`: either the file was not found, or it parsed to a value.
  `FromKeywords` models the TypeErrors of `LabelConfig(**cfg)`: an unknown
  keyword, or a missing `description`. A non-mapping document has no `get`,
  and a non-mapping `labels` value has no `items`; both end in an `Err` too.
- `workflow.dfy`: `labeling_workflow` without the agent's internals.
  `Label` is a class with a constant `name` and two mutable fields,
  `description` and `instructions`. The pipeline is in four steps:
  - `StrictFilter` and `Candidates`: the strict filter.
  - `Enrich`: the in-place enrichment loop over the shared `Label` objects.
  - `LabelChoices`: the `LabelChoice` enumeration. Each member is named and
    valued by a label name.
  - `RunAgent` and `Values`: the agent and the conversion to strings.
    `RunAgent` returns any sequence, of any length and order, drawn from the
    enumeration it is given.
  `LabelingWorkflow` composes the steps. Its contract is modelled on the
  workflow's guarantees: every returned name belongs to a candidate label
  and to an input label, and, when strict, to a configured label. Every
  input label with a configuration entry carries that entry's guidance, and
  every other label keeps its fields.

Where the code's behaviour is easy to misread, the model follows the code:
- The code never checks the types of `instructions`, `strict_labels`,
  `description` or label `instructions`, so the model keeps whatever value
  the document holds.
  `strict_labels` is tested for Python truthiness, not for `True`. A scalar
  `labels` entry becomes the description whatever its type, and so does a
  list.
- An empty document parses to None and fails on `get`. A `labels:` key with
  no value fails on `items`. In both cases the model's `Load` returns an
  error rather than the default configuration.
- An explicit `instructions: null` in a label mapping gives the same
  `LabelConfig` as an absent one, because both are Python's None (`YNull`).

## Model

| member | source | states |
|---|---|---|
| Yaml.FalsyValues | src/ai_labeler/ai.py:59 | The truth test on `strict_labels` is false exactly for None, False, 0, the empty string, the empty list and the empty dict (both directions). |
| Yaml.Get | src/ai_labeler/ai.py:34-39 | `dict.get` returns the stored value when the key is present and the given default when it is absent. |
| LabelerConfig.DefaultConfig | src/ai_labeler/ai.py:44-48 | The missing-file configuration has empty instructions, a false strictness flag and no labels. |
| LabelerConfig.FromKeywords | src/ai_labeler/ai.py:10-13 | `LabelConfig(**kw)` succeeds exactly when every key is `description` or `instructions` and `description` is present. On success the fields are taken from those keys, and a missing `instructions` is None. A keyword the constructor cannot bind (any key but those two, `self` included) is the error reported when there is one. |
| LabelerConfig.ConvertLabels | src/ai_labeler/ai.py:32-35 | The label dict comprehension succeeds iff every entry converts. Its result has exactly the keys of the parsed mapping, and each value is that entry's conversion. |
| LabelerConfig.Load | src/ai_labeler/ai.py:22-48 | A missing file yields `Config("", False, {})`. A non-mapping document fails, and so does a present but non-mapping `labels` value. A mapping document without `labels` always loads. |
| LabelerConfig.LoadSucceeds | src/ai_labeler/ai.py:29-40 | A mapping document loads iff `labels` is absent, or is a mapping each of whose entries `LabelConfig` accepts (both directions). |
| LabelerConfig.LoadDefaults | src/ai_labeler/ai.py:32-40 | Present top-level keys are copied and absent ones default to `""`, `False` and `{}`. The loaded label map has exactly the key set of the parsed `labels` mapping. |
| LabelerConfig.LoadScalarEntry | src/ai_labeler/ai.py:33 | The non-mapping branch of `LabelConfigOf`: a non-mapping `labels` entry loads as `LabelConfig(description=<that value>, instructions=None)`. |
| LabelerConfig.LoadMappingEntry | src/ai_labeler/ai.py:33 | The mapping branch of `LabelConfigOf`: a mapping `labels` entry of a successful load has `description` and only known keys. Its `description`/`instructions` are that mapping's values, and `instructions` is None when absent. |
| LabelerConfig.LoadRejectsBadEntry | src/ai_labeler/ai.py:33 | A mapping entry without `description`, or with another key, makes the whole load fail rather than default. |
| LabelerConfig.EmptyDocumentIsDefault | src/ai_labeler/ai.py:37-48 | An empty mapping loads to the same configuration as a missing file. |
| Workflow.StrictFilter | src/ai_labeler/ai.py:60 | The filtered list is no longer than the input. It holds exactly the input labels whose name is a configuration key. |
| Workflow.StrictFilterAppend | src/ai_labeler/ai.py:60 | Filtering a concatenation is the concatenation of the filtered parts, so relative input order is kept. |
| Workflow.StrictFilterCount | src/ai_labeler/ai.py:60 | A configured label occurs in the result exactly as often as in the input; an unconfigured one never does. |
| Workflow.StrictFilterKeepsAll | src/ai_labeler/ai.py:60 | When every label is configured, the filter returns its input unchanged. |
| Workflow.CandidatesFromInput | src/ai_labeler/ai.py:59-60 | The behaviour of `Candidates`, the labels after the strict-mode branch. Candidates are input labels, and configured ones when strict. Without strictness the list is unchanged. No configured input label is ever dropped. |
| Workflow.Enrich | src/ai_labeler/ai.py:63-67 | After the loop, every label with a configuration entry carries that entry's description and instructions, overwriting older values, None included. Every other label keeps both fields. Objects outside the list are not modified. |
| Workflow.Names | src/ai_labeler/ai.py:70 | The name set holds the name of every label in the list, and nothing that is not one of those names. |
| Workflow.LabelChoices | src/ai_labeler/ai.py:69-71 | The enumeration holds exactly one member per candidate name, and each member's value equals its name. |
| Workflow.RunAgent | src/ai_labeler/ai.py:86-98 | The agent's answer is any sequence of members of the enumeration it was given. |
| Workflow.Values | src/ai_labeler/ai.py:100 | The returned strings have the agent's length, and each position holds the value of the agent's member at that position. |
| Workflow.SelectionSound | src/ai_labeler/ai.py:94-100 | For any answer drawn from the enumeration, the returned strings keep the answer's length and order, element by element. Each one names a candidate label and an input label, and, when strict, a configuration key. |
| Workflow.LabelingWorkflow | src/ai_labeler/ai.py:52-100 | A load error propagates and leaves every label untouched. Otherwise the result only names candidate labels, which are input labels, and configured ones when strict. Configured input labels carry their guidance, and all other labels keep their fields. |
| Workflow.ScenarioLoads | src/ai_labeler/ai.py:32-40 | The worked example's document loads successfully. Its strictness flag is `True`, its label keys are exactly `bug` and `enhancement`, and `enhancement` has the instructions `"Use sparingly"`. |
| Workflow.StrictScenario | src/ai_labeler/ai.py:56-67 | Take the config `{bug: "Something broken", enhancement: {description, instructions: "Use sparingly"}}` with `strict_labels: true`. The candidates `bug`, `enhancement`, `question` filter to `bug`, `enhancement`, and `enhancement` gains the instructions `"Use sparingly"`. |

## Left out

- Choosing the configuration path from `INPUT_CONFIG-PATH` and opening the file: environment and file I/O. The outcome is an input instead, either `FileNotFound` or the parsed value.
- `yaml.safe_load`: an external library. Its output is the input `YamlValue`. Malformed YAML errors come from the parser, so they are not modelled.
- Floats, timestamps and other non-listed YAML scalars, and mapping keys that are not strings: `YamlValue` does not have them.
- Which entry's TypeError is reported when several `labels` entries are invalid: the model uses a `map`, not the dict's insertion order, so `Load` reports one `InvalidLabelEntry` with no entry name.
- The prompt text, the agent's role and instructions, and the `.strip()` of the global instructions: their text goes only to the external agent and has no behavioural contract. `Config.instructions` is loaded but not used further.
- The agent engine behind `cf.run` (model call, `tool_choice`, structured-output parsing and its failures), and the `@cf.flow` decorator: the model keeps only the constraint on the agent's answer.
- Python `Enum` creation mechanics, including its own restrictions on member names (such as names reserved by `Enum`): only the set of names and values is modelled.
- The `item` argument (the pull request or issue): it is only passed to the agent as context. The `.github` module that defines `PullRequest`, `Issue` and `Label` is not part of this model, so `Label` is a minimal class.
