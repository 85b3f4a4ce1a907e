/** Custom-indicator descriptions and the compiler that turns one into the
    parameter map a "create study" request carries
    (src/models/pine_indicator.rs). */
module PineIndicator {
  import opened Common

  // ---------------------------------------------------------------------
  // Closed enumerations and their wire names
  // ---------------------------------------------------------------------

  datatype BuiltinIndicators = All | Fundamental | Standard | Candlestick

  /** The name under which each built-in indicator family is requested. */
  function BuiltinIndicatorsName(b: BuiltinIndicators): (name: string)
    ensures name != []
    ensures forall i :: 0 <= i < |name| ==> 'a' <= name[i] <= 'z'
  {
    match b
    case All => "all"
    case Fundamental => "fundamental"
    case Standard => "standard"
    case Candlestick => "candlestick"
  }

  /** No two built-in families share a name. */
  lemma BuiltinIndicatorsNameInjective(a: BuiltinIndicators, b: BuiltinIndicators)
    requires a != b
    ensures BuiltinIndicatorsName(a) != BuiltinIndicatorsName(b)
  {
  }

  datatype ScriptType =
    | Script
    | IntervalScript
    | StrategyScript
    | VolumeBasicStudies
    | FixedBasicStudies
    | FixedVolumeByPrice
    | SessionVolumeByPrice
    | SessionRoughVolumeByPrice
    | SessionDetailedVolumeByPrice
    | VisibleVolumeByPrice

  /** Where the study name ends in ScriptTypeName(t). */
  function StudyNameLength(t: ScriptType): nat
  {
    match t
    case Script => 6
    case IntervalScript => 8
    case StrategyScript => 14
    case VolumeBasicStudies => 6
    case FixedBasicStudies => 8
    case FixedVolumeByPrice => 8
    case SessionVolumeByPrice => 11
    case SessionRoughVolumeByPrice => 16
    case SessionDetailedVolumeByPrice => 19
    case VisibleVolumeByPrice => 10
  }

  /** The study identifier the remote service knows each script type by:
      a non-empty study name, then '@' and the library it lives in. */
  function ScriptTypeName(t: ScriptType): (id: string)
    ensures 0 < StudyNameLength(t) < |id| && id[StudyNameLength(t)] == '@'
  {
    match t
    case Script => "Script@tv-scripting-101!"
    case IntervalScript => "Internal@tv-scripting-101!"
    case StrategyScript => "StrategyScript@tv-scripting-101!"
    case VolumeBasicStudies => "Volume@tv-basicstudies-144"
    case FixedBasicStudies => "VbPFixed@tv-basicstudies-139!"
    case FixedVolumeByPrice => "VbPFixed@tv-volumebyprice-53!"
    case SessionVolumeByPrice => "VbPSessions@tv-volumebyprice-53"
    case SessionRoughVolumeByPrice => "VbPSessionsRough@tv-volumebyprice-53!"
    case SessionDetailedVolumeByPrice => "VbPSessionsDetailed@tv-volumebyprice-53!"
    case VisibleVolumeByPrice => "VbPVisible@tv-volumebyprice-53"
  }

  /** No two script types share an identifier, so the identifier sent to the
      service determines the script type. */
  lemma ScriptTypeNameInjective(a: ScriptType, b: ScriptType)
    requires a != b
    ensures ScriptTypeName(a) != ScriptTypeName(b)
  {
  }

  /** The script type a fresh indicator gets when none is given. */
  function DefaultScriptType(): (t: ScriptType)
    ensures ScriptTypeName(t) == "Script@tv-scripting-101!"
  {
    Script
  }

  // ---------------------------------------------------------------------
  // Indicator metadata
  // ---------------------------------------------------------------------

  /** One declared input of a script. */
  datatype PineInput = PineInput(
    name: string,
    inline: string,
    id: string,
    defval: Value,
    isHidden: bool,
    isFake: bool,
    optional: bool,
    options: seq<string>,
    tooltip: Option<string>,
    inputType: string)

  /** The script's meta information; of its many fields only the ones that
      identify the script and the input list are kept. */
  datatype PineMetadataInfo = PineMetadataInfo(
    id: string,
    scriptId: string,
    description: string,
    shortDescription: string,
    inputs: seq<PineInput>)

  datatype PineMetadata = PineMetadata(il: string, ilTemplate: string, data: PineMetadataInfo)

  datatype PineIndicator = PineIndicator(
    scriptId: string,
    scriptVersion: string,
    scriptType: ScriptType,
    metadata: PineMetadata)

  /** The value part of a non-reserved parameter: default value, fake flag
      and declared type tag. */
  datatype InputValue = InputValue(v: Value, f: bool, t: string)

  /** One entry of the study-input parameter map: a bare string for the
      reserved names, an InputValue otherwise. */
  datatype IndicatorInput = StringInput(s: string) | ValueInput(value: InputValue)

  type StudyInputs = map<string, IndicatorInput>

  // ---------------------------------------------------------------------
  // Specification of the study-input compiler
  // ---------------------------------------------------------------------

  /** The three parameter names the compiler fills itself. */
  predicate IsReserved(id: string)
  {
    id == "text" || id == "pineId" || id == "pineVersion"
  }

  /** The map before any declared input is looked at. */
  function Seed(ind: PineIndicator): StudyInputs
  {
    map["text" := StringInput(ind.metadata.ilTemplate),
        "pineId" := StringInput(ind.scriptId),
        "pineVersion" := StringInput(ind.scriptVersion)]
  }

  /** The entry a declared input contributes, carrying it verbatim. */
  function EntryOf(input: PineInput): IndicatorInput
  {
    ValueInput(InputValue(input.defval, input.isFake, input.inputType))
  }

  /** `m` after the declared inputs `inputs` have been applied in list order:
      a reserved id is skipped, any other id is (over)written. */
  function Fill(m: StudyInputs, inputs: seq<PineInput>): StudyInputs
    decreases |inputs|
  {
    if inputs == [] then m
    else
      var last := inputs[|inputs| - 1];
      var before := Fill(m, inputs[..|inputs| - 1]);
      if IsReserved(last.id) then before else before[last.id := EntryOf(last)]
  }

  /** The parameter map the compiler produces for `ind`. */
  function CompileStudyInputs(ind: PineIndicator): StudyInputs
  {
    Fill(Seed(ind), ind.metadata.data.inputs)
  }

  /** The ids of the declared inputs that are not reserved. */
  function NonReservedIds(inputs: seq<PineInput>): set<string>
  {
    set i | 0 <= i < |inputs| && !IsReserved(inputs[i].id) :: inputs[i].id
  }

  /** Input `i` is the last one in the list with its id. */
  predicate IsLastWithId(inputs: seq<PineInput>, i: int)
    requires 0 <= i < |inputs|
  {
    forall j :: i < j < |inputs| ==> inputs[j].id != inputs[i].id
  }

  /** No two non-reserved declared inputs share an id. */
  predicate DistinctIds(inputs: seq<PineInput>)
  {
    forall i, j :: 0 <= i < j < |inputs| && !IsReserved(inputs[i].id) ==> inputs[i].id != inputs[j].id
  }

  /** The number of declared inputs that are not reserved. */
  function CountNonReserved(inputs: seq<PineInput>): nat
  {
    if inputs == [] then 0
    else CountNonReserved(inputs[..|inputs| - 1]) + if IsReserved(inputs[|inputs| - 1].id) then 0 else 1
  }

  // ---------------------------------------------------------------------
  // The compiler itself
  // ---------------------------------------------------------------------

  /** Builds the study-input map: seeds the three reserved names, then walks
      the declared inputs in order, skipping reserved ids and inserting every
      other input by its id. The indicator is a value and is not changed. */
  method ToStudyInputs(ind: PineIndicator) returns (inputs: StudyInputs)
    ensures inputs == CompileStudyInputs(ind)
    ensures "text" in inputs && inputs["text"] == StringInput(ind.metadata.ilTemplate)
    ensures "pineId" in inputs && inputs["pineId"] == StringInput(ind.scriptId)
    ensures "pineVersion" in inputs && inputs["pineVersion"] == StringInput(ind.scriptVersion)
    ensures inputs.Keys == {"text", "pineId", "pineVersion"} + NonReservedIds(ind.metadata.data.inputs)
  {
    inputs := map[];
    inputs := inputs["text" := StringInput(ind.metadata.ilTemplate)];
    inputs := inputs["pineId" := StringInput(ind.scriptId)];
    inputs := inputs["pineVersion" := StringInput(ind.scriptVersion)];
    ghost var seed := inputs;
    assert seed == Seed(ind);
    var declared := ind.metadata.data.inputs;
    for i := 0 to |declared|
      invariant inputs == Fill(seed, declared[..i])
    {
      var input := declared[i];
      assert declared[..i + 1][..i] == declared[..i];
      if input.id == "text" || input.id == "pineId" || input.id == "pineVersion" {
        continue;
      }
      inputs := inputs[input.id := ValueInput(InputValue(input.defval, input.isFake, input.inputType))];
    }
    assert declared[..|declared|] == declared;
    CompiledReserved(ind);
    CompiledKeys(ind);
  }

  // ---------------------------------------------------------------------
  // Properties of Fill
  // ---------------------------------------------------------------------

  /** Splitting off the last input splits off at most its id. */
  lemma NonReservedIdsSnoc(inputs: seq<PineInput>)
    requires inputs != []
    ensures var last := inputs[|inputs| - 1];
      NonReservedIds(inputs) ==
        NonReservedIds(inputs[..|inputs| - 1]) + if IsReserved(last.id) then {} else {last.id}
  {
  }

  /** Fill adds exactly the non-reserved declared ids to the keys. */
  lemma {:induction false} FillKeys(m: StudyInputs, inputs: seq<PineInput>)
    ensures Fill(m, inputs).Keys == m.Keys + NonReservedIds(inputs)
    decreases |inputs|
  {
    if inputs != [] {
      FillKeys(m, inputs[..|inputs| - 1]);
      NonReservedIdsSnoc(inputs);
    }
  }

  /** A key that no non-reserved input names keeps its seeded entry. */
  lemma {:induction false} FillUntouched(m: StudyInputs, inputs: seq<PineInput>, k: string)
    requires k in m && k !in NonReservedIds(inputs)
    ensures k in Fill(m, inputs) && Fill(m, inputs)[k] == m[k]
    decreases |inputs|
  {
    if inputs != [] {
      NonReservedIdsSnoc(inputs);
      FillUntouched(m, inputs[..|inputs| - 1], k);
    }
  }

  /** The entry for a non-reserved id comes from the last input with that id. */
  lemma {:induction false} FillLastWins(m: StudyInputs, inputs: seq<PineInput>, i: int)
    requires 0 <= i < |inputs| && !IsReserved(inputs[i].id) && IsLastWithId(inputs, i)
    ensures inputs[i].id in Fill(m, inputs) && Fill(m, inputs)[inputs[i].id] == EntryOf(inputs[i])
    decreases |inputs|
  {
    var n := |inputs| - 1;
    if i < n {
      var front := inputs[..n];
      assert front[i] == inputs[i];
      assert IsLastWithId(front, i) by {
        forall j | i < j < |front| ensures front[j].id != front[i].id {
          assert front[j] == inputs[j];
        }
      }
      FillLastWins(m, front, i);
      assert inputs[n].id != inputs[i].id;
    }
  }

  /** The number of non-reserved ids equals the number of non-reserved
      inputs when those ids are distinct. */
  lemma {:induction false} DistinctIdsCount(inputs: seq<PineInput>)
    requires DistinctIds(inputs)
    ensures |NonReservedIds(inputs)| == CountNonReserved(inputs)
    decreases |inputs|
  {
    if inputs != [] {
      var n := |inputs| - 1;
      var front := inputs[..n];
      assert DistinctIds(front) by {
        forall i, j | 0 <= i < j < |front| && !IsReserved(front[i].id)
          ensures front[i].id != front[j].id
        {
          assert front[i] == inputs[i] && front[j] == inputs[j];
        }
      }
      DistinctIdsCount(front);
      NonReservedIdsSnoc(inputs);
      if !IsReserved(inputs[n].id) {
        forall i | 0 <= i < |front| && !IsReserved(front[i].id)
          ensures front[i].id != inputs[n].id
        {
          assert front[i] == inputs[i];
        }
        assert inputs[n].id !in NonReservedIds(front);
      }
    }
  }

  // ---------------------------------------------------------------------
  // Properties of the compiled map
  // ---------------------------------------------------------------------

  /** The reserved names always carry the template, the script id and the
      script version, whatever the declared inputs are. */
  lemma CompiledReserved(ind: PineIndicator)
    ensures var r := CompileStudyInputs(ind);
      && "text" in r && r["text"] == StringInput(ind.metadata.ilTemplate)
      && "pineId" in r && r["pineId"] == StringInput(ind.scriptId)
      && "pineVersion" in r && r["pineVersion"] == StringInput(ind.scriptVersion)
  {
    var inputs := ind.metadata.data.inputs;
    assert !("text" in NonReservedIds(inputs));
    assert !("pineId" in NonReservedIds(inputs));
    assert !("pineVersion" in NonReservedIds(inputs));
    FillUntouched(Seed(ind), inputs, "text");
    FillUntouched(Seed(ind), inputs, "pineId");
    FillUntouched(Seed(ind), inputs, "pineVersion");
  }

  /** The key set is the three reserved names plus the non-reserved ids. */
  lemma CompiledKeys(ind: PineIndicator)
    ensures CompileStudyInputs(ind).Keys
      == {"text", "pineId", "pineVersion"} + NonReservedIds(ind.metadata.data.inputs)
  {
    FillKeys(Seed(ind), ind.metadata.data.inputs);
  }

  /** Every non-reserved declared input that is the last with its id shows
      up, keyed by its id, carrying its default value, fake flag and type tag
      unchanged; an earlier input with the same id is overwritten. */
  lemma CompiledInputEntry(ind: PineIndicator, i: int)
    requires 0 <= i < |ind.metadata.data.inputs|
    requires !IsReserved(ind.metadata.data.inputs[i].id)
    requires IsLastWithId(ind.metadata.data.inputs, i)
    ensures var input := ind.metadata.data.inputs[i];
      var r := CompileStudyInputs(ind);
      input.id in r && r[input.id] == ValueInput(InputValue(input.defval, input.isFake, input.inputType))
  {
    FillLastWins(Seed(ind), ind.metadata.data.inputs, i);
  }

  /** Conversely, every entry under a non-reserved name comes from a declared
      input with that name, namely the last one. */
  lemma CompiledEntryHasSource(ind: PineIndicator, k: string)
    requires k in CompileStudyInputs(ind) && !IsReserved(k)
    ensures exists i :: (0 <= i < |ind.metadata.data.inputs|
      && ind.metadata.data.inputs[i].id == k
      && IsLastWithId(ind.metadata.data.inputs, i)
      && CompileStudyInputs(ind)[k] == EntryOf(ind.metadata.data.inputs[i]))
  {
    var inputs := ind.metadata.data.inputs;
    CompiledKeys(ind);
    assert k in NonReservedIds(inputs);
    var i :| 0 <= i < |inputs| && !IsReserved(inputs[i].id) && inputs[i].id == k;
    // move to the last occurrence of k
    while !IsLastWithId(inputs, i)
      invariant 0 <= i < |inputs| && inputs[i].id == k
      decreases |inputs| - i
    {
      var j :| i < j < |inputs| && inputs[j].id == inputs[i].id;
      i := j;
    }
    FillLastWins(Seed(ind), inputs, i);
  }

  /** With distinct declared ids the map holds exactly three entries more
      than there are non-reserved inputs. */
  lemma CompiledSize(ind: PineIndicator)
    requires DistinctIds(ind.metadata.data.inputs)
    ensures |CompileStudyInputs(ind)| == 3 + CountNonReserved(ind.metadata.data.inputs)
  {
    var inputs := ind.metadata.data.inputs;
    var r := CompileStudyInputs(ind);
    CompiledKeys(ind);
    DistinctIdsCount(inputs);
    var reserved: set<string> := {"text", "pineId", "pineVersion"};
    assert reserved !! NonReservedIds(inputs);
    assert |reserved| == 3;
    assert |r| == |r.Keys|;
  }
}
