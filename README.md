# Prompt rendering and label attachment of `StructuralDataLoader`

This Dafny project models the repository's own logic in the supervised
fine-tuning data loader `StructuralDataLoader`
(`src/dataloaders/llm_dataloader.py`). It covers the following:

- **Prompt rendering** (`generate_prompt`). Instruction, input and response are
  filled into a fixed three-section template (`### Instruction:`,
  `### Input:`, `### Response:`). Python's `str.strip()` is then applied to
  the result. `str.strip()` and `str.isspace()` are modelled exactly, over
  Python's set of whitespace code points (module `PyStr`).
- **Row-to-prompt assembly**. This is the list comprehension in
  `preprocess_function`. It zips the three configured columns of a batch and
  renders one prompt per row, in row order. Like Python's `zip`, it stops at
  the shortest column. A column missing from the batch raises `KeyError`.
- **Label attachment** (`add_labels`). The record, a Python dict updated in
  place, gets a `labels` entry that holds a *copy* of its `input_ids` list.
  Lists are modelled as objects (`IntList`), so the model can show that the
  copy is not an alias.
- **Tokenizer configuration** in `__init__`. If the tokenizer has no pad
  token id, it takes the end-of-sequence token id. The padding side is then
  set to the configured value.

Modules: `Wrappers` (Option, Result, the Python exceptions), `PyStr`,
`Prompt`, `Records` (the dict and list objects, and the value-level
specification of `add_labels`) and `Loader` (the classes).

## Model

| member | source | states |
|---|---|---|
| `PyStr.StripTrailingSpec` | src/dataloaders/llm_dataloader.py:85 | The right half of `.strip()`. The result is a prefix of the input, everything cut off is whitespace, and the result is empty or ends in a non-whitespace character. |
| `PyStr.StripLeadingSpec` | src/dataloaders/llm_dataloader.py:85 | The left half of `.strip()`. The result is a suffix of the input, everything cut off is whitespace, and the result is empty or starts with a non-whitespace character. |
| `PyStr.StripIsTrimmedSlice` | src/dataloaders/llm_dataloader.py:85 | `.strip()` returns a contiguous slice of its input. Only whitespace lies on either side of it, and it neither starts nor ends with whitespace. |
| `PyStr.StripLeadingNoop` | src/dataloaders/llm_dataloader.py:85 | For a string whose first character is not whitespace, `.strip()` only trims the right end. |
| `PyStr.StripTrailingAppend` | src/dataloaders/llm_dataloader.py:85 | Right-trimming `a + b` trims only `b` if `b` holds a non-whitespace character. Otherwise `b` disappears and `a` is trimmed. |
| `PyStr.StripTrailingIdempotent` | src/dataloaders/llm_dataloader.py:85 | Right-trimming twice gives the same result as trimming once. |
| `PyStr.StripTrailingEmptyIff` | src/dataloaders/llm_dataloader.py:85 | A string right-trims to the empty string exactly when every character in it is whitespace. |
| `Prompt.PromptShape` | src/dataloaders/llm_dataloader.py:78-85 | Exact form of the prompt. For a non-blank response it is the template with the response's trailing whitespace removed. For an empty or all-whitespace response it is the template up to and including `### Response:`. |
| `Prompt.PromptStartsWithTemplate` | src/dataloaders/llm_dataloader.py:78-85 | The prompt starts with `"### Instruction:\n"` followed by the instruction. It contains the whole template through `### Response:` and its first character is `#`, so the leading strip removes nothing. |
| `Prompt.PromptIsTrailingTrim` | src/dataloaders/llm_dataloader.py:78-85 | The prompt is a prefix of the unstripped template, and everything after it is whitespace. |
| `Prompt.PromptEndsInNonSpace` | src/dataloaders/llm_dataloader.py:85 | The prompt is never empty and never ends in a whitespace character. |
| `Prompt.PromptExactWhenResponseEndsInNonSpace` | src/dataloaders/llm_dataloader.py:84-85 | If the response is non-empty and its last character is not whitespace, the prompt is exactly the unstripped template. |
| `Prompt.PromptWhenResponseBlank` | src/dataloaders/llm_dataloader.py:84-85 | If the response is empty or all whitespace, the newline after the response header is removed too, and the prompt ends with `### Response:`. |
| `Prompt.PromptExample` | src/dataloaders/llm_dataloader.py:72-86 | Instruction "Explain X", input "Y" and response "Z" render as the six-line template, with no surrounding whitespace. |
| `Prompt.Zip3` | src/dataloaders/llm_dataloader.py:98-102 | `zip` of three columns yields min of their lengths rows. Row k holds the k-th element of each column. |
| `Prompt.BuildPrompts` | src/dataloaders/llm_dataloader.py:92-103 | The comprehension yields exactly min(\|instructions\|, \|inputs\|, \|responses\|) prompts. Prompt k is `generate_prompt` of row k's three values. |
| `Prompt.BuildPromptsIgnoresOverhang` | src/dataloaders/llm_dataloader.py:92-103 | Values past the end of the shortest column do not affect the prompts. |
| `Prompt.BuildPromptsAppend` | src/dataloaders/llm_dataloader.py:92-103 | Appending one row to three columns of equal length appends that row's prompt at the end, so prompts follow row order. |
| `Loader.StructuralDataLoader.PreprocessPrompts` | src/dataloaders/llm_dataloader.py:88-103 | The three configured columns are looked up in order. The first missing one raises `KeyError` with its name. When all three are present, the result has min-length prompts and prompt k renders row k. |
| `Records.WithLabels` | src/dataloaders/llm_dataloader.py:113-118 | Value-level `add_labels`. The result succeeds exactly when `input_ids` is present and holds a list. It raises `KeyError` when `input_ids` is missing, and `AttributeError` when `input_ids` is not a list. On success, `labels` equals `input_ids`, the keys are the old keys plus `labels`, and every other key keeps its value. |
| `Records.WithLabelsIdempotent` | src/dataloaders/llm_dataloader.py:117 | Labelling an already labelled record changes nothing. |
| `Records.WithLabelsIgnoresOldLabels` | src/dataloaders/llm_dataloader.py:117 | Any earlier `labels` entry is overwritten. Two records that differ only in `labels` are labelled alike. |
| `Records.IntList.Copy` | src/dataloaders/llm_dataloader.py:117 | `list.copy()` returns a fresh list object with the same items. |
| `Loader.StructuralDataLoader.AddLabels` | src/dataloaders/llm_dataloader.py:113-118 | The record's new contents are `WithLabels` of its old contents, and on error it is unchanged. On success, `labels` is bound to a freshly allocated list, every other key keeps the object it had, and the same record is returned. |
| `Loader.LabelsAreACopy` | src/dataloaders/llm_dataloader.py:117 | After `add_labels`, a write into the `input_ids` list changes `input_ids` but leaves `labels` holding the old items. |
| `Loader.StructuralDataLoader.constructor` | src/dataloaders/llm_dataloader.py:23-36 | Stores the configuration. `pad_token_id` becomes `eos_token_id` if it was unset and keeps its value otherwise; it is set afterwards exactly when either id was set. `eos_token_id` is unchanged and `padding_side` equals the argument. |

## Left out

- Tokenizer loading (`AutoTokenizer.from_pretrained`) is left out. The constructor takes an already loaded `Tokenizer` holding only the attributes the loader touches, because resolving a model path happens inside the `transformers` library.
- Tokenization (the `data_encoder(...)` call in `preprocess_function`) is left out. Encoding, special tokens, truncation to `max_length`, padding and attention masks all happen inside that library. The model stops at the prompts handed to the tokenizer, and `input_ids` is an abstract list of integers.
- `__call__` is left out: `load_dataset` on `{data_path}/train.parquet`, `train_test_split` and the two `Dataset.map` passes. They are file I/O, a seeded library shuffle with a float split ratio, and a library driver that only applies the modelled functions to each partition.
- `torch` tensors (`return_tensors="pt"`) are left out as a foreign data representation.
- `split_ratio` is kept as a `real` that is only stored. Floating point is not modelled.
- Batch columns are modelled as lists of strings. A non-string cell, which the f-string would render through `str()`, is not modelled.
- `padding_side` is stored as given, and `max_length` is not checked, because the code validates neither at construction. An invalid value surfaces only later, inside the tokenizer, which is not part of this model.
