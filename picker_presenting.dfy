/** Showing and hiding the shared picker from any view controller
    (UIViewController+Extension.swift). The picker slides up from below the
    view; its top constraint's constant says how far. */
module PickerPresenting {
  import opened UIKit
  import opened PickerView

  const PickerHeight: real := 220.0

  /** Top-constraint constant that shows the whole picker above the bottom
      safe-area inset. */
  function OpenOffset(safeAreaBottom: real): (constant: real)
    ensures constant + PickerHeight + safeAreaBottom == 0.0
    ensures safeAreaBottom >= 0.0 ==> constant < 0.0
  {
    -(PickerHeight + safeAreaBottom)
  }

  /** `isPickerOpened` for a top constraint, if the view has one: open
      iff its constant is not zero. */
  function Opened(topConstraint: Option<real>): (open: bool)
    ensures topConstraint.None? ==> !open
    ensures topConstraint.Some? ==> (open <==> topConstraint.value != 0.0)
  {
    match topConstraint
    case None => false
    case Some(constant) => constant != 0.0
  }

  /** A view controller that presents the picker. */
  class PickerHost {
    /** The picker subview found by its tag, if one was added. */
    var picker: CustomPickerView?
    /** The picker's top constraint's constant, if the constraint exists. */
    var topConstraint: Option<real>
    /** Height constraint of the picker. */
    var pickerHeight: real
    var safeAreaBottom: real
    /** Whether the `doneProcess` last passed to `showPicker` is set. */
    var hasDoneProcess: bool
    /** Values handed to `doneProcess`, in order. */
    var doneValues: seq<int>
    /** Number of pickers ever added to the view. */
    var pickersCreated: nat
    /** Number of top constraints ever created. */
    var constraintsCreated: nat

    ghost predicate Valid()
      reads this
    {
      && (picker == null <==> pickersCreated == 0) && pickersCreated <= 1
      && (topConstraint.None? <==> constraintsCreated == 0) && constraintsCreated <= 1
    }

    constructor (safeAreaBottom: real)
      ensures Valid() && picker == null && topConstraint.None? && doneValues == []
      ensures this.safeAreaBottom == safeAreaBottom
    {
      picker := null;
      topConstraint := None;
      pickerHeight := 0.0;
      this.safeAreaBottom := safeAreaBottom;
      hasDoneProcess := false;
      doneValues := [];
      pickersCreated := 0;
      constraintsCreated := 0;
    }

    /** `isPickerOpened`. */
    function IsPickerOpened(): (open: bool)
      reads this
      ensures open <==> topConstraint.Some? && topConstraint.value != 0.0
    {
      Opened(topConstraint)
    }

    /** `showPicker`: reuse the picker or add one, give it the data, make
        its Done button hand the value on and close, and slide it up. */
    method ShowPicker(data: seq<Choice>, selectedRow: nat, hasDoneProcess: bool)
      requires Valid()
      modifies this, picker
      ensures Valid() && picker != null
      ensures old(picker) != null ==> picker == old(picker)
      ensures old(picker) == null ==> fresh(picker)
      ensures pickersCreated == 1 && constraintsCreated == 1
      ensures picker.data == data && picker.selectedRow == selectedRow && picker.hasDoneCallback
      ensures this.hasDoneProcess == hasDoneProcess
      ensures pickerHeight == PickerHeight + safeAreaBottom
      ensures topConstraint == Some(OpenOffset(safeAreaBottom))
      ensures IsPickerOpened() <==> safeAreaBottom != -PickerHeight
      ensures safeAreaBottom == old(safeAreaBottom) && doneValues == old(doneValues)
    {
      var customPicker: CustomPickerView;
      if picker != null {
        customPicker := picker;
      } else {
        customPicker := new CustomPickerView();
        picker := customPicker;
        pickersCreated := pickersCreated + 1;
      }
      customPicker.SetData(data, selectedRow);
      customPicker.hasDoneCallback := true;
      this.hasDoneProcess := hasDoneProcess;
      pickerHeight := PickerHeight + safeAreaBottom;
      if topConstraint.None? {
        topConstraint := Some(0.0);
        constraintsCreated := constraintsCreated + 1;
      }
      topConstraint := Some(0.0);
      topConstraint := Some(-(PickerHeight + safeAreaBottom));
    }

    /** `closePicker`: slide the picker down, if it was ever shown. */
    method ClosePicker()
      requires Valid()
      modifies this`topConstraint
      ensures Valid()
      ensures topConstraint == if old(topConstraint).None? then None else Some(0.0)
      ensures !IsPickerOpened()
    {
      if topConstraint.Some? {
        topConstraint := Some(0.0);
      }
    }

    /** The picker's Done button, through the closure `showPicker`
        installed: hand the value on, then close. */
    method TapDone()
      requires Valid() && picker != null
      modifies this`doneValues, this`topConstraint
      ensures Valid()
      ensures var row := picker.selectedRow;
              var valid := picker.hasDoneCallback && row < |picker.data|;
              && doneValues == old(doneValues) + (if valid && hasDoneProcess then [picker.data[row].0] else [])
              && topConstraint == if valid then (if old(topConstraint).None? then None else Some(0.0)) else old(topConstraint)
    {
      var handed := picker.DidTapDoneButton();
      if handed.Some? {
        if hasDoneProcess {
          doneValues := doneValues + [handed.value];
        }
        ClosePicker();
      }
    }
  }

  /** Worked example. Showing the picker twice keeps one picker and one top constraint;
      choosing a row and tapping Done hands back its value and closes it. */
  method ShowChooseDoneScenario()
  {
    var host := new PickerHost(34.0);
    host.ShowPicker([(10, "ten"), (20, "twenty")], 0, true);
    assert host.IsPickerOpened();
    var first := host.picker;
    host.ShowPicker([(10, "ten"), (20, "twenty"), (30, "thirty")], 2, true);
    assert host.picker == first && host.pickersCreated == 1 && host.constraintsCreated == 1;
    host.picker.DidSelectRow(1);
    host.TapDone();
    assert host.doneValues == [20];
    assert !host.IsPickerOpened();
  }
}
