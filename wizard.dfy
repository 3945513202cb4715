// Step navigation of the test-creation wizard: a current index moved by
// next, prev and goTo, clamped to the list of steps.

module Wizard {
  import opened Common

  datatype WizardStep = WizardStep(id: string, stepLabel: string)

  class WizardState {
    const steps: seq<WizardStep>
    var currentIndex: int

    /** The index stays on a step whenever there is one. */
    ghost predicate Valid()
      reads this
    {
      |steps| > 0 ==> 0 <= currentIndex < |steps|
    }

    /** The wizard opens on the first step. */
    constructor(steps: seq<WizardStep>)
      ensures this.steps == steps && currentIndex == 0
      ensures Valid()
    {
      this.steps := steps;
      currentIndex := 0;
    }

    /** The current step; nothing when the index is off the list. */
    function CurrentStep(): (r: Option<WizardStep>)
      reads this
      ensures r.Some? <==> 0 <= currentIndex < |steps|
      ensures r.Some? ==> r.value == steps[currentIndex]
    {
      if 0 <= currentIndex < |steps| then Some(steps[currentIndex]) else None
    }

    function IsFirst(): (r: bool)
      reads this
      ensures r <==> currentIndex == 0
    {
      currentIndex == 0
    }

    function IsLast(): (r: bool)
      reads this
      ensures r <==> currentIndex == |steps| - 1
    {
      currentIndex == |steps| - 1
    }

    /** The percentage of steps reached; nothing when there are no steps (a division by zero). */
    function Progress(): (r: Option<real>)
      reads this
      ensures r.Some? <==> |steps| > 0
      ensures r.Some? ==> r.value * |steps| as real == (currentIndex + 1) as real * 100.0
      ensures r.Some? && currentIndex == |steps| - 1 ==> r.value == 100.0
    {
      if |steps| == 0 then None
      else
        var n := |steps| as real;
        assert currentIndex == |steps| - 1 ==> (currentIndex + 1) as real / n == 1.0;
        Some((currentIndex + 1) as real / n * 100.0)
    }

    /** One step forward, but not past the last. */
    method Next()
      modifies this
      ensures currentIndex == Min(old(currentIndex) + 1, |steps| - 1)
      ensures old(Valid()) ==> Valid()
      ensures old(Valid()) && |steps| > 0 && old(currentIndex) == |steps| - 1 ==> currentIndex == old(currentIndex)
      ensures old(IsLast()) ==> IsLast()
    {
      currentIndex := Min(currentIndex + 1, |steps| - 1);
    }

    /** One step back, but not before the first. */
    method Prev()
      modifies this
      ensures currentIndex == Max(old(currentIndex) - 1, 0)
      ensures old(Valid()) ==> Valid()
      ensures old(currentIndex) == 0 ==> currentIndex == 0
      ensures old(IsFirst()) ==> IsFirst()
    {
      currentIndex := Max(currentIndex - 1, 0);
    }

    /** Jump to `index` when it names a step; otherwise stay. */
    method GoTo(index: int)
      modifies this
      ensures 0 <= index < |steps| ==> currentIndex == index
      ensures !(0 <= index < |steps|) ==> currentIndex == old(currentIndex)
      ensures old(Valid()) ==> Valid()
    {
      if index >= 0 && index < |steps| {
        currentIndex := index;
      }
    }
  }

  function Min(a: int, b: int): (r: int)
    ensures r <= a && r <= b && (r == a || r == b)
  {
    if a <= b then a else b
  }

  function Max(a: int, b: int): (r: int)
    ensures r >= a && r >= b && (r == a || r == b)
  {
    if a >= b then a else b
  }

  /** Going forward from a step before the last and back again returns to it. */
  method NextThenPrev(w: WizardState)
    requires w.Valid() && 0 <= w.currentIndex < |w.steps| - 1
    modifies w
    ensures w.currentIndex == old(w.currentIndex)
    ensures w.Valid()
  {
    w.Next();
    assert w.currentIndex == old(w.currentIndex) + 1 && w.Valid();
    w.Prev();
    assert w.currentIndex == old(w.currentIndex);
  }
}
