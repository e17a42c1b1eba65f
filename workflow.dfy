/**
 * The label selection pipeline of `labeling_workflow` in src/ai_labeler/ai.py:
 * load the configuration, keep only configured labels when strict, copy each
 * configured label's guidance onto the shared `Label` objects, offer the agent
 * the closed set of remaining names, and hand back its choices as strings.
 */
module Workflow {
  import opened Wrappers
  import opened Yaml
  import opened LabelerConfig

  /**
   * A repository label. The caller owns the objects; the workflow overwrites
   * `description` and `instructions` in place and never changes `name`.
   */
  class Label {
    const name: string
    var description: YamlValue
    var instructions: YamlValue

    constructor (name: string, description: YamlValue, instructions: YamlValue)
      ensures this.name == name && this.description == description && this.instructions == instructions
    {
      this.name := name;
      this.description := description;
      this.instructions := instructions;
    }
  }

  /** The label shows exactly the guidance of `cfg`. */
  predicate Carries(l: Label, cfg: LabelConfig)
    reads l
  {
    l.description == cfg.description && l.instructions == cfg.instructions
  }

  /** The names of `labels`, as a set. */
  function Names(labels: seq<Label>): (r: set<string>)
    ensures forall j | 0 <= j < |labels| :: labels[j].name in r
    ensures forall n | n in r :: exists j | 0 <= j < |labels| :: labels[j].name == n
  {
    set j | 0 <= j < |labels| :: labels[j].name
  }

  /** Every entry of `names` is the name of some label of `labels`. */
  predicate NamedBy(names: seq<string>, labels: seq<Label>)
  {
    forall i | 0 <= i < |names| :: names[i] in Names(labels)
  }

  // ---------------------------------------------------------------------------
  // Step 1: the strict filter (ai.py line 60), a new list of the labels whose name is
  // configured, in input order

  function StrictFilter(labels: seq<Label>, configured: map<string, LabelConfig>): (r: seq<Label>)
    ensures |r| <= |labels|
    ensures forall l | l in r :: l in labels && l.name in configured
    ensures forall l | l in labels && l.name in configured :: l in r
  {
    if labels == [] then []
    else (if labels[0].name in configured then [labels[0]] else []) + StrictFilter(labels[1..], configured)
  }

  /** Filtering a concatenation filters each part in place: the filter keeps relative order. */
  lemma {:induction false} StrictFilterAppend(a: seq<Label>, b: seq<Label>, configured: map<string, LabelConfig>)
    ensures StrictFilter(a + b, configured) == StrictFilter(a, configured) + StrictFilter(b, configured)
  {
    if a == [] {
      assert a + b == b;
    } else {
      assert (a + b)[0] == a[0];
      assert (a + b)[1..] == a[1..] + b;
      StrictFilterAppend(a[1..], b, configured);
    }
  }

  /** Each configured label occurs in the result as often as in the input; every other occurs never. */
  lemma {:induction false} StrictFilterCount(labels: seq<Label>, configured: map<string, LabelConfig>, l: Label)
    ensures multiset(StrictFilter(labels, configured))[l] == if l.name in configured then multiset(labels)[l] else 0
  {
    if labels != [] {
      assert labels == [labels[0]] + labels[1..];
      StrictFilterCount(labels[1..], configured, l);
    }
  }

  /** When every label is configured, the filter removes nothing. */
  lemma {:induction false} StrictFilterKeepsAll(labels: seq<Label>, configured: map<string, LabelConfig>)
    requires forall i | 0 <= i < |labels| :: labels[i].name in configured
    ensures StrictFilter(labels, configured) == labels
  {
    if labels != [] {
      StrictFilterKeepsAll(labels[1..], configured);
    }
  }

  /** The labels offered to the agent: filtered when `strict_labels` is truthy, all of them otherwise. */
  function Candidates(labels: seq<Label>, config: Config): seq<Label>
  {
    if Truthy(config.strictLabels) then StrictFilter(labels, config.labels) else labels
  }

  /**
   * Candidates come from the input, are configured when strict, the input is
   * untouched when not strict, and no configured label is ever dropped.
   */
  lemma CandidatesFromInput(labels: seq<Label>, config: Config)
    ensures forall l | l in Candidates(labels, config) :: l in labels
    ensures Truthy(config.strictLabels) ==> forall l | l in Candidates(labels, config) :: l.name in config.labels
    ensures !Truthy(config.strictLabels) ==> Candidates(labels, config) == labels
    ensures forall l | l in labels && l.name in config.labels :: l in Candidates(labels, config)
  {
  }

  // ---------------------------------------------------------------------------
  // Step 2: enrichment, the `for` loop that writes into the shared label objects

  method Enrich(labels: seq<Label>, configured: map<string, LabelConfig>)
    modifies set l | l in labels
    ensures forall l | l in labels && l.name in configured :: Carries(l, configured[l.name])
    ensures forall l | l in labels && l.name !in configured ::
              l.description == old(l.description) && l.instructions == old(l.instructions)
  {
    for i := 0 to |labels|
      invariant forall k | 0 <= k < i && labels[k].name in configured :: Carries(labels[k], configured[labels[k].name])
      invariant forall l | l in labels && l.name !in configured ::
                  l.description == old(l.description) && l.instructions == old(l.instructions)
    {
      var l := labels[i];
      if l.name in configured {
        var cfg := configured[l.name];
        l.description := cfg.description;
        l.instructions := cfg.instructions;
      }
    }
  }

  // ---------------------------------------------------------------------------
  // Step 3: the `LabelChoice` enumeration, one member per name, valued by that name

  datatype Choice = Choice(name: string, value: string)

  function LabelChoices(labels: seq<Label>): (r: set<Choice>)
    ensures forall c :: c in r <==> c.value == c.name && c.name in Names(labels)
  {
    set n | n in Names(labels) :: Choice(n, n)
  }

  // ---------------------------------------------------------------------------
  // Step 4: the agent's answer and its conversion to plain strings

  /**
   * The external agent: any list of members of the enumeration it is given,
   * in any order, possibly empty, possibly with repeats.
   */
  method RunAgent(choices: set<Choice>) returns (decision: seq<Choice>)
    ensures forall i | 0 <= i < |decision| :: decision[i] in choices
  {
    decision :| forall i | 0 <= i < |decision| :: decision[i] in choices;
  }

  /** The agent's members replaced by their string values, in the agent's order (ai.py line 100). */
  function Values(decision: seq<Choice>): (r: seq<string>)
    ensures |r| == |decision|
    ensures forall i | 0 <= i < |r| :: r[i] == decision[i].value
  {
    seq(|decision|, i requires 0 <= i < |decision| => decision[i].value)
  }

  /**
   * Whatever the agent picks from the enumeration, the returned strings keep its
   * order and length, each one names a candidate label and a label of the
   * original input, and, when strict, a configured label.
   */
  lemma SelectionSound(labels: seq<Label>, config: Config, decision: seq<Choice>)
    requires forall i | 0 <= i < |decision| :: decision[i] in LabelChoices(Candidates(labels, config))
    ensures |Values(decision)| == |decision|
    ensures forall i | 0 <= i < |decision| :: Values(decision)[i] == decision[i].name
    ensures NamedBy(Values(decision), Candidates(labels, config))
    ensures NamedBy(Values(decision), labels)
    ensures Truthy(config.strictLabels) ==>
              forall i | 0 <= i < |decision| :: Values(decision)[i] in config.labels
  {
  }

  // ---------------------------------------------------------------------------
  // The whole workflow

  method LabelingWorkflow(source: ConfigSource, labels: seq<Label>) returns (r: Result<seq<string>, LoadError>)
    modifies set l | l in labels
    ensures Load(source).Err? ==> r == Err(Load(source).error)
    ensures Load(source).Err? ==>
              forall l | l in labels :: l.description == old(l.description) && l.instructions == old(l.instructions)
    ensures Load(source).Ok? ==> r.Ok?
    ensures r.Ok? ==> Load(source).Ok? && NamedBy(r.value, Candidates(labels, Load(source).value))
    ensures r.Ok? ==> NamedBy(r.value, labels)
    ensures r.Ok? && Truthy(Load(source).value.strictLabels) ==>
              forall i | 0 <= i < |r.value| :: r.value[i] in Load(source).value.labels
    ensures Load(source).Ok? ==>
              forall l | l in labels && l.name in Load(source).value.labels :: Carries(l, Load(source).value.labels[l.name])
    ensures Load(source).Ok? ==>
              forall l | l in labels && l.name !in Load(source).value.labels ::
                l.description == old(l.description) && l.instructions == old(l.instructions)
  {
    var loaded := Load(source);
    if loaded.Err? {
      return Err(loaded.error);
    }
    var config := loaded.value;
    var candidates := Candidates(labels, config);
    CandidatesFromInput(labels, config);
    Enrich(candidates, config.labels);
    var decision := RunAgent(LabelChoices(candidates));
    SelectionSound(labels, config, decision);
    r := Ok(Values(decision));
  }

  /** The configuration document of the worked example below. */
  function ScenarioDocument(): map<string, YamlValue>
  {
    var full := map[DescriptionKey := YStr("New feature"), InstructionsKey := YStr("Use sparingly")];
    var entries := map["bug" := YStr("Something broken"), "enhancement" := YMap(full)];
    map[StrictLabelsKey := YBool(true), LabelsKey := YMap(entries)]
  }

  /** The worked example's document loads as a strict configuration of `bug` and `enhancement`. */
  lemma ScenarioLoads()
    ensures Load(Parsed(YMap(ScenarioDocument()))).Ok?
    ensures var config := Load(Parsed(YMap(ScenarioDocument()))).value;
      && config.strictLabels == YBool(true)
      && config.labels.Keys == {"bug", "enhancement"}
      && config.labels["enhancement"].instructions == YStr("Use sparingly")
  {
    var data := ScenarioDocument();
    var full := map[DescriptionKey := YStr("New feature"), InstructionsKey := YStr("Use sparingly")];
    assert FromKeywords(full).Ok?;
    LoadSucceeds(data);
    var config := Load(Parsed(YMap(data))).value;
    LoadDefaults(data, config);
    LoadMappingEntry(data, "enhancement", full, config);
  }

  /**
   * A worked example: `bug` configured tersely, `enhancement` in full,
   * `strict_labels: true`, and candidates `bug`, `enhancement`, `question`.
   */
  method StrictScenario() returns (candidateNames: seq<string>, enhancementInstructions: YamlValue)
    ensures candidateNames == ["bug", "enhancement"]
    ensures enhancementInstructions == YStr("Use sparingly")
  {
    var bug := new Label("bug", YNull, YNull);
    var enhancement := new Label("enhancement", YNull, YNull);
    var question := new Label("question", YNull, YNull);
    ScenarioLoads();
    var config := Load(Parsed(YMap(ScenarioDocument()))).value;
    var c := config.labels;
    var candidates := Candidates([bug, enhancement, question], config);
    assert candidates == [bug, enhancement] by {
      assert [bug, enhancement, question][1..] == [enhancement, question];
      assert [enhancement, question][1..] == [question];
      assert StrictFilter([question], c) == [] by {
        assert question.name !in c;
        assert [question][1..] == [];
      }
      assert StrictFilter([enhancement, question], c) == [enhancement];
      assert StrictFilter([bug, enhancement, question], c) == [bug, enhancement];
    }
    Enrich(candidates, c);
    candidateNames := seq(|candidates|, i requires 0 <= i < |candidates| => candidates[i].name);
    enhancementInstructions := enhancement.instructions;
  }
}
