/** `StructuralDataLoader`: its configuration, the pad-token fallback it
    applies to its tokenizer, the prompt step of `preprocess_function`, and
    `add_labels`. */
module Loader {
  import opened Wrappers
  import opened Prompt
  import opened Records

  /** The tokenizer attributes the loader reads and writes; `None` stands for
      Python's `None`. */
  class Tokenizer {
    var padTokenId: Option<int>
    var eosTokenId: Option<int>
    var paddingSide: string

    constructor (padTokenId: Option<int>, eosTokenId: Option<int>, paddingSide: string)
      ensures this.padTokenId == padTokenId && this.eosTokenId == eosTokenId
      ensures this.paddingSide == paddingSide
    {
      this.padTokenId := padTokenId;
      this.eosTokenId := eosTokenId;
      this.paddingSide := paddingSide;
    }
  }

  class StructuralDataLoader {
    const dataPath: string
    const splitRatio: real
    const seed: int
    const instructionColumnName: string
    const dataColumnName: string
    const targetColumnName: string
    const maxLength: int
    const dataEncoder: Tokenizer

    /** `__init__`, given the tokenizer that `AutoTokenizer.from_pretrained`
        loaded: stores the configuration, falls back to the end-of-sequence
        token when the tokenizer has no pad token, and sets the padding side. */
    constructor (dataPath: string, splitRatio: real, seed: int,
                 instructionColumnName: string, dataColumnName: string, targetColumnName: string,
                 maxLength: int, encoder: Tokenizer, paddingSide: string)
      modifies encoder
      ensures this.dataPath == dataPath && this.splitRatio == splitRatio && this.seed == seed
      ensures this.instructionColumnName == instructionColumnName
      ensures this.dataColumnName == dataColumnName
      ensures this.targetColumnName == targetColumnName
      ensures this.maxLength == maxLength && dataEncoder == encoder
      ensures old(encoder.padTokenId).None? ==> encoder.padTokenId == old(encoder.eosTokenId)
      ensures old(encoder.padTokenId).Some? ==> encoder.padTokenId == old(encoder.padTokenId)
      ensures encoder.padTokenId.Some? <==> old(encoder.padTokenId).Some? || old(encoder.eosTokenId).Some?
      ensures encoder.eosTokenId == old(encoder.eosTokenId)
      ensures encoder.paddingSide == paddingSide
    {
      this.dataPath := dataPath;
      this.splitRatio := splitRatio;
      this.seed := seed;
      this.instructionColumnName := instructionColumnName;
      this.dataColumnName := dataColumnName;
      this.targetColumnName := targetColumnName;
      this.maxLength := maxLength;
      this.dataEncoder := encoder;
      new;
      if encoder.padTokenId.None? {
        encoder.padTokenId := encoder.eosTokenId;
      }
      encoder.paddingSide := paddingSide;
    }

    /** The prompts `preprocess_function` hands to the tokenizer for one batch
        (column name to column values): the three configured columns are
        looked up in order, the first missing one raising `KeyError`, then
        zipped and rendered row by row. */
    function PreprocessPrompts(batch: map<string, seq<string>>): (r: Result<seq<string>>)
      ensures r.Ok? <==>
        instructionColumnName in batch && dataColumnName in batch && targetColumnName in batch
      ensures instructionColumnName !in batch ==> r == Err(KeyError(instructionColumnName))
      ensures instructionColumnName in batch && dataColumnName !in batch ==>
        r == Err(KeyError(dataColumnName))
      ensures instructionColumnName in batch && dataColumnName in batch && targetColumnName !in batch ==>
        r == Err(KeyError(targetColumnName))
      ensures r.Ok? ==>
        var instructions, inputs, responses :=
          batch[instructionColumnName], batch[dataColumnName], batch[targetColumnName];
        |r.value| == Min3(|instructions|, |inputs|, |responses|)
        && forall k :: 0 <= k < |r.value| ==>
          r.value[k] == GeneratePrompt(instructions[k], inputs[k], responses[k])
    {
      if instructionColumnName !in batch then
        Err(KeyError(instructionColumnName))
      else if dataColumnName !in batch then
        Err(KeyError(dataColumnName))
      else if targetColumnName !in batch then
        Err(KeyError(targetColumnName))
      else
        Ok(BuildPrompts(batch[instructionColumnName], batch[dataColumnName], batch[targetColumnName]))
    }

    /** `add_labels`: binds `labels` in the record to a copy of its
        `input_ids` list and returns the same record. The copy is a new list
        object; every other key keeps the object it had. */
    method AddLabels(datas: Record) returns (r: Result<Record>)
      modifies datas
      ensures r.Err? ==> datas.cells == old(datas.cells)
      ensures r.Err? ==> WithLabels(old(datas.Snapshot())) == Err(r.error)
      ensures r.Ok? ==> r.value == datas
      ensures r.Ok? ==> WithLabels(old(datas.Snapshot())) == Ok(datas.Snapshot())
      ensures r.Ok? ==>
        Labels in datas.cells && datas.cells[Labels].List? && fresh(datas.cells[Labels].list)
      ensures r.Ok? ==> forall k :: k in old(datas.cells) && k != Labels ==>
        k in datas.cells && datas.cells[k] == old(datas.cells[k])
    {
      if InputIds !in datas.cells {
        return Err(KeyError(InputIds));
      }
      match datas.cells[InputIds]
      case List(ids) =>
        var copy := ids.Copy();
        datas.cells := datas.cells[Labels := List(copy)];
        r := Ok(datas);
        assert InputIds != Labels;
        assert datas.Snapshot() == old(datas.Snapshot())[Labels := ListValue(ids.items)];
      case _ =>
        return Err(AttributeError("copy"));
    }
  }

  /** `labels` is a copy, not an alias: after `add_labels`, writing a token
      into the record's `input_ids` list leaves `labels` as `input_ids` was. */
  method LabelsAreACopy(loader: StructuralDataLoader, datas: Record, i: nat, v: int)
    returns (r: Result<Record>)
    requires InputIds in datas.cells && datas.cells[InputIds].List?
    requires i < |datas.cells[InputIds].list.items|
    modifies datas, datas.Lists()
    ensures r.Ok? && Labels in datas.cells && InputIds in datas.cells
    ensures var before := old(datas.cells[InputIds].list.items);
      datas.Snapshot()[Labels] == ListValue(before)
      && datas.Snapshot()[InputIds] == ListValue(before[i := v])
  {
    r := loader.AddLabels(datas);
    var ids := datas.cells[InputIds].list;
    assert ids in old(datas.Lists());
    ids.Set(i, v);
  }
}
