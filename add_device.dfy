/**
 * The unified add-device scaffold (add-device.js): nine steps, 0-based,
 * moved by Next, Back and the step labels with no validation at all, the
 * buttons shown on each step, and a Save that only closes the modal.
 */
module AddDevice {

  import opened Common

  /** The step titles, in order. */
  const Steps: seq<string> := [
    "Basics", "Connection", "Profile", "Discovery", "Telemetry", "Control", "Alarms", "Commissioning", "Review"]

  /** The index of the last step. */
  const LastStep := |Steps| - 1

  /** Which navigation buttons are hidden on a step. */
  datatype Buttons = Buttons(backHidden: bool, nextHidden: bool, saveHidden: bool)

  /** `renderAddSteps`' visibility rules. */
  function ButtonsAt(step: nat): (b: Buttons)
    ensures b.backHidden <==> step == 0
    ensures b.nextHidden <==> step == LastStep
    ensures b.saveHidden <==> step != LastStep
  {
    Buttons(step == 0, step == LastStep, step != LastStep)
  }

  /** The modal title: the type, or 'Device' without one. */
  function Title(kind: Option<string>): (t: string)
    ensures kind.Some? && kind.value != "" ==> t == kind.value + " \U{2014} Add"
    ensures !(kind.Some? && kind.value != "") ==> t == "Device \U{2014} Add"
  {
    (if kind.Some? && kind.value != "" then kind.value else "Device") + " \U{2014} Add"
  }

  class AddDeviceWizard {
    var kind: Option<string>
    var step: nat
    var siteCtx: Option<string>
    var data: map<string, string>
    var modalOpen: bool

    predicate Valid()
      reads this
    {
      step <= LastStep
    }

    constructor ()
      ensures Valid() && kind.None? && step == 0 && siteCtx.None? && data == map[] && !modalOpen
    {
      kind := None;
      step := 0;
      siteCtx := None;
      data := map[];
      modalOpen := false;
    }

    /** `openAddDevice`: first step, empty data, the site context or null for a missing or empty one. */
    method Open(kind: Option<string>, siteCtx: Option<string>)
      modifies this
      ensures Valid() && this.kind == kind && step == 0 && data == map[] && modalOpen
      ensures this.siteCtx == if siteCtx.Some? && siteCtx.value != "" then siteCtx else None
    {
      this.kind := kind;
      step := 0;
      this.siteCtx := if siteCtx.Some? && siteCtx.value != "" then siteCtx else None;
      data := map[];
      modalOpen := true;
    }

    /** The Next button: forward while not on the last step. */
    method NextPressed()
      requires Valid()
      modifies this
      ensures Valid()
      ensures step == if old(step) < LastStep then old(step) + 1 else old(step)
      ensures kind == old(kind) && siteCtx == old(siteCtx) && data == old(data) && modalOpen == old(modalOpen)
    {
      if step < LastStep {
        step := step + 1;
      }
    }

    /** The Back button: back while not on the first step. */
    method BackPressed()
      requires Valid()
      modifies this
      ensures Valid()
      ensures step == if old(step) > 0 then old(step) - 1 else old(step)
      ensures kind == old(kind) && siteCtx == old(siteCtx) && data == old(data) && modalOpen == old(modalOpen)
    {
      if step > 0 {
        step := step - 1;
      }
    }

    /** A step label: its step, whatever the current one. */
    method LabelClicked(index: nat)
      requires index <= LastStep
      modifies this
      ensures Valid() && step == index
      ensures kind == old(kind) && siteCtx == old(siteCtx) && data == old(data) && modalOpen == old(modalOpen)
    {
      step := index;
    }

    /** Save: the modal is hidden and nothing is stored. */
    method SavePressed()
      modifies this
      ensures !modalOpen
      ensures kind == old(kind) && step == old(step) && siteCtx == old(siteCtx) && data == old(data)
    {
      modalOpen := false;
    }

    /** The close button: the modal is hidden and the state kept. */
    method ClosePressed()
      modifies this
      ensures !modalOpen
      ensures kind == old(kind) && step == old(step) && siteCtx == old(siteCtx) && data == old(data)
    {
      modalOpen := false;
    }
  }

  /** A user action on the wizard. */
  datatype Event = Next | Back | Label(index: nat) | Save

  /** The step after one action. */
  function StepAfter(step: nat, e: Event): (r: nat)
    requires step <= LastStep
    requires e.Label? ==> e.index <= LastStep
    ensures r <= LastStep
    ensures e == Next ==> r == if step < LastStep then step + 1 else step
    ensures e == Back ==> r == if step > 0 then step - 1 else step
    ensures e.Label? ==> r == e.index
    ensures e == Save ==> r == step
  {
    match e
    case Next => if step < LastStep then step + 1 else step
    case Back => if step > 0 then step - 1 else step
    case Label(i) => i
    case Save => step
  }

  /** Labels that exist: one per step. */
  predicate RealLabels(events: seq<Event>)
  {
    forall k :: 0 <= k < |events| && events[k].Label? ==> events[k].index <= LastStep
  }

  /** The step after a run of actions from the first step. */
  function Run(events: seq<Event>): (r: nat)
    requires RealLabels(events)
    ensures r <= LastStep
  {
    if |events| == 0 then 0
    else StepAfter(Run(events[..|events| - 1]), events[|events| - 1])
  }

  /** Every step, the review included, is one label click away from the start: nothing gates the way forward. */
  lemma EveryStepReachable(target: nat)
    requires target <= LastStep
    ensures RealLabels([Label(target)]) && Run([Label(target)]) == target
  {
    assert [Label(target)][..0] == [];
  }

  /** Walking forward with Next from the start reaches step n after n presses. */
  lemma {:induction false} NextWalk(n: nat)
    requires n <= LastStep
    ensures RealLabels(seq(n, _ => Next)) && Run(seq(n, _ => Next)) == n
  {
    if n > 0 {
      NextWalk(n - 1);
      assert seq(n, _ => Next)[..n - 1] == seq(n - 1, _ => Next);
    }
  }
}
