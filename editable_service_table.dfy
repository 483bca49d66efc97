/**
 * The editable lists of value-added and aggregator services: edit one
 * field of one row, append a default row, remove a row by index. Every
 * handler builds a new list and leaves its input alone.
 */
module EditableServiceTable {
  import opened Types

  /** The two editable fields of a row. */
  datatype ServiceField = Name | Description

  /** `{ ...item, [field]: value }`. */
  function WithField(item: ValueAddedService, field: ServiceField, value: string): (r: ValueAddedService)
    ensures field == Name ==> r.name == value && r.description == item.description
    ensures field == Description ==> r.description == value && r.name == item.name
  {
    match field
    case Name => item.(name := value)
    case Description => item.(description := value)
  }

  /** `handleItemChange`: copy the list into a fresh array, rewrite the one
      slot, hand the copy on. */
  method ItemChange(data: seq<ValueAddedService>, index: int, field: ServiceField, value: string)
    returns (newData: seq<ValueAddedService>)
    requires 0 <= index < |data|
    ensures |newData| == |data|
    ensures newData[index] == WithField(data[index], field, value)
    ensures forall i :: 0 <= i < |data| && i != index ==> newData[i] == data[i]
  {
    var copy := new ValueAddedService[|data|](i requires 0 <= i < |data| => data[i]);
    copy[index] := WithField(copy[index], field, value);
    newData := copy[..];
  }

  const NewItem: ValueAddedService := ValueAddedService("New Service", "New Description")

  /** `handleAddItem`: the list with a default row at the end. */
  function AddItem(data: seq<ValueAddedService>): (r: seq<ValueAddedService>)
    ensures |r| == |data| + 1 && r[..|data|] == data && r[|data|] == NewItem
  {
    data + [NewItem]
  }

  /** `data.filter((_, i) => i !== index)`, position by position. */
  function RemoveItem(data: seq<ValueAddedService>, index: int): (r: seq<ValueAddedService>)
    ensures |r| <= |data|
  {
    if data == [] then []
    else
      var n := |data| - 1;
      RemoveItem(data[..n], index) + (if n == index then [] else [data[n]])
  }

  /** A valid index removes exactly that row and keeps the others in order. */
  lemma {:induction false} RemoveValidIndex(data: seq<ValueAddedService>, index: int)
    requires 0 <= index < |data|
    ensures RemoveItem(data, index) == data[..index] + data[index + 1..]
  {
    var n := |data| - 1;
    if index == n {
      RemoveOutOfRange(data[..n], index);
      assert data[..index] + data[index + 1..] == data[..n];
    } else {
      RemoveValidIndex(data[..n], index);
      assert data[..n][..index] == data[..index];
      assert data[..n][index + 1..] + [data[n]] == data[index + 1..];
    }
  }

  /** An index outside the list removes nothing. */
  lemma {:induction false} RemoveOutOfRange(data: seq<ValueAddedService>, index: int)
    requires index < 0 || index >= |data|
    ensures RemoveItem(data, index) == data
  {
    if data != [] {
      var n := |data| - 1;
      RemoveOutOfRange(data[..n], index);
      assert data == data[..n] + [data[n]];
    }
  }

  /** Adding a row and removing it again gives back the list. */
  lemma AddThenRemove(data: seq<ValueAddedService>)
    ensures RemoveItem(AddItem(data), |data|) == data
  {
    RemoveValidIndex(AddItem(data), |data|);
    assert AddItem(data)[..|data|] == data;
  }
}
