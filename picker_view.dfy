/** A picker with a Done toolbar button (CustomPickerView.swift). */
module PickerView {
  import opened UIKit

  /** A choice: the value handed back and the title shown. */
  type Choice = (int, string)

  class CustomPickerView {
    var data: seq<Choice>
    /** The selected row; rows are numbered from 0. */
    var selectedRow: nat
    /** Whether `didTapDoneButtonProcess` is set. */
    var hasDoneCallback: bool

    constructor ()
      ensures data == [] && selectedRow == 0 && !hasDoneCallback
    {
      data := [];
      selectedRow := 0;
      hasDoneCallback := false;
    }

    /** `setData`: replace the choices and the selection. */
    method SetData(data: seq<Choice>, selectedRow: nat)
      modifies this`data, this`selectedRow
      ensures this.data == data && this.selectedRow == selectedRow
    {
      this.data := data;
      this.selectedRow := selectedRow;
    }

    /** `didTapDoneButton`: the value handed to the Done callback, if the
        callback is set and the selected row is a row of the data. */
    method DidTapDoneButton() returns (handed: Option<int>)
      ensures handed.Some? <==> hasDoneCallback && selectedRow < |data|
      ensures handed.Some? ==> handed.value == data[selectedRow].0
    {
      if !(selectedRow < |data|) {
        return None;
      }
      if hasDoneCallback {
        return Some(data[selectedRow].0);
      }
      return None;
    }

    /** `numberOfComponents(in:)`. */
    function NumberOfComponents(): (n: nat)
      ensures n == 1
    {
      1
    }

    /** `numberOfRowsInComponent`. */
    function NumberOfRows(): (n: nat)
      reads this
      ensures n == |data|
    {
      |data|
    }

    /** `titleForRow`: the title of a row of the data, none past the end. */
    function TitleForRow(row: nat): (title: Option<string>)
      reads this
      ensures title.Some? <==> row < NumberOfRows()
      ensures title.Some? ==> title.value == data[row].1
    {
      if row < |data| then Some(data[row].1) else None
    }

    /** `didSelectRow`. */
    method DidSelectRow(row: nat)
      modifies this`selectedRow
      ensures selectedRow == row
    {
      selectedRow := row;
    }
  }

  /** The picker offers one column whose rows are exactly the titles of
      the data, in order. */
  lemma RowsShowTheData(picker: CustomPickerView)
    ensures picker.NumberOfComponents() == 1
    ensures forall row: nat :: row < picker.NumberOfRows() <==> picker.TitleForRow(row).Some?
    ensures forall row: nat :: row < |picker.data| ==> picker.TitleForRow(row) == Some(picker.data[row].1)
  {
  }

  /** Worked example. Choosing a row and tapping Done hands back that row's value. */
  method SelectThenDoneScenario(picker: CustomPickerView, row: nat) returns (handed: Option<int>)
    requires picker.hasDoneCallback && row < |picker.data|
    modifies picker
    ensures handed == Some(old(picker.data)[row].0)
  {
    picker.DidSelectRow(row);
    handed := picker.DidTapDoneButton();
  }
}
