/**
 * The prediction result modal: the risk badge and the safety advice it shows for a
 * prediction, and its open/close state with the three-step entrance animation
 * (backdrop, then panel, then content), each step a timer event.
 */
module ResultModal {
  import opened Js

  /** `getRiskLevel`'s record. */
  datatype RiskInfo = RiskInfo(level: string, color: string, bgColor: string, icon: string, description: string)

  /** `getRiskLevel`: the low badge for a prediction loosely equal to 1, the high badge otherwise. */
  function RiskLevel(prediction: Value, text: string -> Option<real>): (info: RiskInfo)
    ensures info.level == "LOW CHANCE" <==> LooseEqualsNumber(prediction, 1.0, text)
    ensures info.level == "LOW CHANCE" || info.level == "HIGH CHANCE"
  {
    if LooseEqualsNumber(prediction, 1.0, text) then
      RiskInfo("LOW CHANCE", "text-green-400", "bg-green-900/30", "\U{1F7E2}", "Minimal fire risk")
    else
      RiskInfo("HIGH CHANCE", "text-red-500", "bg-red-900/30", "\U{1F534}", "Extreme fire risk")
  }

  const DefaultAdvice := "Monitor conditions and stay alert."

  /** `getRiskAdvice`: its own sentence for "LOW" and for "EXTREME", the default for anything else. */
  function RiskAdvice(riskLevel: string): (advice: string)
    ensures riskLevel != "LOW" && riskLevel != "EXTREME" <==> advice == DefaultAdvice
  {
    match riskLevel
    case "LOW" => "Continue monitoring conditions. Fire risk is minimal."
    case "EXTREME" => "CRITICAL! Immediate action required."
    case _ => DefaultAdvice
  }

  /**
   * The advice is looked up by the badge's level, which is "LOW CHANCE" or "HIGH
   * CHANCE" and never "LOW" or "EXTREME": every prediction gets the default advice.
   */
  lemma AdviceAlwaysDefault(prediction: Value, text: string -> Option<real>)
    ensures RiskAdvice(RiskLevel(prediction, text).level) == DefaultAdvice
  {
  }

  /**
   * Loose equality at work: the number 1, `true` and a string that converts to 1
   * all get the low badge; `null`, `undefined`, 0 and NaN get the high one.
   */
  lemma LowBadgeCases(text: string -> Option<real>, s: string)
    ensures RiskLevel(Num(1.0), text).level == "LOW CHANCE"
    ensures RiskLevel(Bool(true), text).level == "LOW CHANCE"
    ensures text(s) == Some(1.0) ==> RiskLevel(Str(s), text).level == "LOW CHANCE"
    ensures RiskLevel(Null, text).level == "HIGH CHANCE"
    ensures RiskLevel(Undefined, text).level == "HIGH CHANCE"
    ensures RiskLevel(Num(0.0), text).level == "HIGH CHANCE"
    ensures RiskLevel(NaN, text).level == "HIGH CHANCE"
  {
  }

  /** The animation steps still to come after step `k`: `k + 1`, …, 3. */
  function StepsAfter(k: nat): (steps: seq<nat>)
    requires k <= 3
    ensures |steps| == 3 - k
    ensures forall i :: 0 <= i < |steps| ==> steps[i] == k + 1 + i
    decreases 3 - k
  {
    if k == 3 then [] else [k + 1] + StepsAfter(k + 1)
  }

  /**
   * The modal's state: the `isOpen` the effect last ran for, `isVisible`,
   * `animationStep`, and the steps whose timers are still scheduled.
   */
  class ModalState {
    var isOpen: bool
    var isVisible: bool
    var animationStep: nat
    var pending: seq<nat>

    /**
     * Open: visible, at a step of at most 3 with exactly the later steps still
     * scheduled, in order.  Closed: invisible, at step 0, nothing scheduled.
     */
    predicate Valid()
      reads this
    {
      if isOpen then isVisible && animationStep <= 3 && pending == StepsAfter(animationStep)
      else !isVisible && animationStep == 0 && pending == []
    }

    /** The first render, and the effect's first run for the initial `isOpen`. */
    constructor (open: bool)
      ensures Valid() && isOpen == open && animationStep == 0
      ensures pending == if open then [1, 2, 3] else []
    {
      isOpen := open;
      isVisible := open;
      animationStep := 0;
      pending := if open then [1, 2, 3] else [];
    }

    /**
     * A new `isOpen` prop.  The effect runs only when the prop changes: the previous
     * run's cleanup cancels its timers, then opening shows the modal at step 0 with
     * steps 1, 2, 3 scheduled, and closing hides it at step 0.
     */
    method SetOpen(open: bool)
      requires Valid()
      modifies this
      ensures Valid() && isOpen == open
      ensures open == old(isOpen) ==>
                isVisible == old(isVisible) && animationStep == old(animationStep) && pending == old(pending)
      ensures open != old(isOpen) ==> animationStep == 0 && isVisible == open
      ensures open != old(isOpen) && open ==> pending == [1, 2, 3]
    {
      if open != isOpen {
        pending := [];
        isOpen := open;
        if open {
          isVisible := true;
          animationStep := 0;
          pending := [1, 2, 3];
        } else {
          isVisible := false;
          animationStep := 0;
        }
      }
    }

    /**
     * The earliest scheduled timer fires and sets its step; with none scheduled
     * nothing happens.  Steps therefore only go up, one at a time, while open.
     */
    method Tick()
      requires Valid()
      modifies this
      ensures Valid() && isOpen == old(isOpen) && isVisible == old(isVisible)
      ensures old(pending) != [] ==> animationStep == old(pending)[0] == old(animationStep) + 1
                                     && pending == old(pending)[1..]
      ensures old(pending) == [] ==> animationStep == old(animationStep) && pending == []
    {
      if pending != [] {
        animationStep := pending[0];
        pending := pending[1..];
      }
    }

    /** The component renders anything at all. */
    predicate Renders()
      reads this
      ensures Valid() ==> (Renders() <==> isOpen)
    {
      isVisible
    }

    /** The backdrop is faded in. */
    predicate BackdropShown()
      reads this
      ensures Valid() && BackdropShown() ==> Renders()
    {
      animationStep >= 1
    }

    /** The panel is scaled in. */
    predicate PanelShown()
      reads this
      ensures PanelShown() ==> animationStep >= 1
    {
      animationStep >= 2
    }

    /** The icon, badge, factors, advice and buttons are shown. */
    predicate ContentShown()
      reads this
      ensures Valid() && ContentShown() ==> animationStep == 3 && pending == []
    {
      animationStep >= 3
    }
  }

  /** The entrance appears in layers: content only over a shown panel, a panel only over a shown backdrop. */
  lemma Layered(m: ModalState)
    ensures m.ContentShown() ==> m.PanelShown()
    ensures m.PanelShown() ==> m.BackdropShown()
  {
  }

  /**
   * Opening a closed modal and letting its three timers fire shows everything;
   * closing it again renders nothing, however far the animation had got.
   */
  method OpenThenClose(ticks: nat) returns (afterOpen: bool, fullyShown: bool, afterClose: bool)
    ensures afterOpen
    ensures fullyShown <==> ticks >= 3
    ensures !afterClose
  {
    var m := new ModalState(false);
    m.SetOpen(true);
    afterOpen := m.Renders() && !m.BackdropShown();
    var i := 0;
    while i < ticks
      invariant 0 <= i <= ticks
      invariant m.Valid() && m.isOpen
      invariant m.animationStep == if i < 3 then i else 3
      modifies m
    {
      m.Tick();
      i := i + 1;
    }
    fullyShown := m.ContentShown();
    m.SetOpen(false);
    afterClose := m.Renders();
  }
}
