/** The per-example record that `Dataset.map` hands to `add_labels`: a Python
    dict from column name to value, where list values are mutable objects
    that two keys may share. */
module Records {
  import opened Wrappers

  /** A Python list of token ids. */
  class IntList {
    var items: seq<int>

    constructor (items: seq<int>)
      ensures this.items == items
    {
      this.items := items;
    }

    /** `xs.copy()`: a new list object holding the same items. */
    method Copy() returns (c: IntList)
      ensures fresh(c) && c.items == items
    {
      c := new IntList(items);
    }

    /** `xs[i] = v`. */
    method Set(i: nat, v: int)
      requires i < |items|
      modifies this
      ensures items == old(items)[i := v]
    {
      items := items[i := v];
    }
  }

  /** A value stored under a key: text, a number, or a reference to a list. */
  datatype Cell = Text(text: string) | Number(number: int) | List(list: IntList)

  /** What a cell holds at one moment, with a list reference replaced by its items. */
  datatype Value = TextValue(text: string) | NumberValue(number: int) | ListValue(items: seq<int>)

  const InputIds: string := "input_ids"
  const Labels: string := "labels"

  /** A Python dict updated in place. */
  class Record {
    var cells: map<string, Cell>

    constructor (cells: map<string, Cell>)
      ensures this.cells == cells
    {
      this.cells := cells;
    }

    /** The list objects the record refers to. */
    ghost function Lists(): set<IntList>
      reads this
    {
      set k | k in cells && cells[k].List? :: cells[k].list
    }

    /** The record's contents as plain values. */
    function Snapshot(): (m: map<string, Value>)
      reads this, Lists()
      ensures m.Keys == cells.Keys
    {
      map k | k in cells :: match cells[k]
        case Text(t) => TextValue(t)
        case Number(n) => NumberValue(n)
        case List(l) => ListValue(l.items)
    }
  }

  /** What `add_labels` makes of a record's contents: `labels` bound to the
      items of `input_ids`; a `KeyError` when `input_ids` is missing and an
      `AttributeError` when its value is not a list (no `.copy()`). */
  function WithLabels(record: map<string, Value>): (r: Result<map<string, Value>>)
    ensures r.Ok? <==> InputIds in record && record[InputIds].ListValue?
    ensures InputIds !in record ==> r == Err(KeyError(InputIds))
    ensures InputIds in record && !record[InputIds].ListValue? ==> r == Err(AttributeError("copy"))
    ensures r.Ok? ==> r.value.Keys == record.Keys + {Labels}
    ensures r.Ok? ==> r.value[Labels] == r.value[InputIds] == record[InputIds]
    ensures r.Ok? ==> forall k :: k in record && k != Labels ==> r.value[k] == record[k]
  {
    if InputIds !in record then
      Err(KeyError(InputIds))
    else if record[InputIds].ListValue? then
      Ok(record[Labels := record[InputIds]])
    else
      Err(AttributeError("copy"))
  }

  /** Labelling twice gives what labelling once gives. */
  lemma WithLabelsIdempotent(record: map<string, Value>)
    requires WithLabels(record).Ok?
    ensures WithLabels(WithLabels(record).value) == WithLabels(record)
  {
    var once := WithLabels(record).value;
    assert once[InputIds] == record[InputIds];
    assert once[Labels := once[InputIds]] == once;
  }

  /** Labelling touches only the `labels` key: a record that agrees with
      another everywhere except `labels` gets the same labelled contents. */
  lemma WithLabelsIgnoresOldLabels(record: map<string, Value>, other: map<string, Value>)
    requires WithLabels(record).Ok?
    requires other.Keys + {Labels} == record.Keys + {Labels}
    requires forall k :: k in record && k != Labels ==> k in other && other[k] == record[k]
    ensures WithLabels(other) == WithLabels(record)
  {
    assert InputIds != Labels;
    assert other[InputIds] == record[InputIds];
    var a := WithLabels(record).value;
    var b := WithLabels(other).value;
    assert a.Keys == b.Keys;
    forall k | k in a ensures a[k] == b[k] {
    }
    assert a == b;
  }
}
