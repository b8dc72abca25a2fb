/** The first-run guide: six steps walked with Next and Back, finished by
    Next on the last step or by Skip at any step. Finishing records the
    "done" flag and hands control back to the app. */
module Onboarding {
  import opened Text

  datatype Step = Step(icon: string, title: string, description: string)

  const Steps: seq<Step> := [
    Step("\U{1F504}", "Scroll", "Rotate the click wheel to scroll through menus and lists"),
    Step("\U{23FA}", "Select", "Press the center button to select a menu item or track"),
    Step("\U{2B05}\U{FE0F}", "Go Back", "Press MENU or the \U{25C0}\U{25C0} button to go back one step"),
    Step("\U{23EF}", "Play / Pause", "Press \U{25B6}\U{275A}\U{275A} at the bottom of the wheel to play or pause music"),
    Step("\U{1F50D}", "Search Songs", "Go to Music \U{2192} Search to find songs on YouTube"),
    Step("\U{1F3B5}", "Track Options", "Select a track to see options: Play Now or Add to Playlist")
  ]

  const LastStep := |Steps| - 1

  /** The guide's state: the step on display, and whether the guide has
      been finished (the stored flag written and `onComplete` called). */
  datatype Guide = Guide(step: nat, done: bool)

  predicate Valid(g: Guide)
  {
    g.step <= LastStep
  }

  const Start := Guide(0, false)

  /** Skip, or Next on the last step. */
  function Finished(g: Guide): (r: Guide)
    ensures r.done && r.step == g.step
  {
    g.(done := true)
  }

  /** Next: one step forward, or finish on the last step. */
  function NextPressed(g: Guide): (r: Guide)
    requires Valid(g)
    ensures Valid(r)
    ensures g.step < LastStep ==> r == Guide(g.step + 1, g.done)
    ensures g.step == LastStep ==> r == Finished(g)
  {
    if g.step < LastStep then g.(step := g.step + 1) else Finished(g)
  }

  /** Back: one step back, nothing on the first step. */
  function BackPressed(g: Guide): (r: Guide)
    requires Valid(g)
    ensures Valid(r) && r.done == g.done
    ensures g.step > 0 ==> r.step == g.step - 1
    ensures g.step == 0 ==> r == g
  {
    if g.step > 0 then g.(step := g.step - 1) else g
  }

  /** Back undoes Next everywhere but on the last step. */
  lemma BackUndoesNext(g: Guide)
    requires Valid(g) && g.step < LastStep
    ensures BackPressed(NextPressed(g)) == g
  {
  }

  /** `k` presses of Next. */
  function NextTimes(g: Guide, k: nat): (r: Guide)
    requires Valid(g)
    ensures Valid(r)
    decreases k
  {
    if k == 0 then g else NextTimes(NextPressed(g), k - 1)
  }

  /** From step `i`, pressing Next `k` times without reaching the last
      step's press lands on step `i + k` and does not finish. */
  lemma {:induction false} NextTimesWalks(g: Guide, k: nat)
    requires Valid(g) && !g.done && g.step + k <= LastStep
    ensures NextTimes(g, k) == Guide(g.step + k, false)
    decreases k
  {
    if k > 0 {
      NextTimesWalks(NextPressed(g), k - 1);
    }
  }

  /** From the start, six presses of Next finish the guide and five do
      not. */
  lemma WalkThrough()
    ensures NextTimes(Start, |Steps| - 1) == Guide(LastStep, false)
    ensures NextTimes(Start, |Steps|).done
  {
    NextTimesWalks(Start, |Steps| - 1);
    NextTimesLast(Start, |Steps| - 1);
  }

  lemma {:induction false} NextTimesLast(g: Guide, k: nat)
    requires Valid(g)
    ensures NextTimes(g, k + 1) == NextPressed(NextTimes(g, k))
    decreases k
  {
    if k > 0 {
      NextTimesLast(NextPressed(g), k - 1);
    }
  }

  /** The main button reads "Get Started" on the last step and
      "Next →" before it. */
  function NextCaption(g: Guide): (s: string)
    requires Valid(g)
    ensures s == "Get Started" <==> g.step == LastStep
  {
    if g.step == LastStep then "Get Started" else "Next \U{2192}"
  }

  /** The counter under the card: "i / 6", counting from one. */
  function Counter(g: Guide): (s: string)
    requires Valid(g)
    ensures s == NatToString(g.step + 1) + " / 6"
    ensures var first := NatToString(g.step + 1);
            |first| <= |s| && s[..|first|] == first && 1 <= ParseNat(first) <= |Steps|
  {
    ParseNatToString(g.step + 1);
    assert NatToString(|Steps|) == "6";
    NatToString(g.step + 1) + " / " + NatToString(|Steps|)
  }

  /** The guide as a component. */
  class Guidebook {
    var currentStep: nat
    var done: bool

    function State(): Guide
      reads this
    {
      Guide(currentStep, done)
    }

    constructor ()
      ensures State() == Start
    {
      currentStep := 0;
      done := false;
    }

    method Next()
      requires Valid(State())
      modifies this
      ensures Valid(State()) && State() == NextPressed(old(State()))
    {
      if currentStep < |Steps| - 1 {
        currentStep := currentStep + 1;
      } else {
        Finish();
      }
    }

    method Prev()
      requires Valid(State())
      modifies this
      ensures Valid(State()) && State() == BackPressed(old(State()))
    {
      if currentStep > 0 {
        currentStep := currentStep - 1;
      }
    }

    /** Also the Skip button. */
    method Finish()
      modifies this
      ensures State() == Finished(old(State()))
    {
      done := true;
    }
  }
}
