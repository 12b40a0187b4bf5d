/**
  The area-of-interest drawing panel (`Control.tsx`): a button that starts
  or cancels drawing and an "Apply AOI" button that is enabled only when
  there is a drawn area different from the applied one. The drawing state
  and the two callbacks belong to the parent and arrive as props.
 */
module AoiControl {
  import opened Wrappers

  datatype Props = Props(isDrawing: bool, hasAOI: bool, sameAOI: bool)

  /** The drawing toggle's colour: red while drawing, blue otherwise. */
  datatype Tone = Red | Blue

  /** The Apply button's look: green and active, or greyed out. */
  datatype Look = Active | Greyed

  /** The callbacks the panel invokes. */
  datatype Action = ToggleDrawing | ApplyAoi

  datatype Button = DrawToggle | ApplyButton

  /** The `disabled` attribute of "Apply AOI". */
  predicate ApplyDisabled(p: Props) {
    !p.hasAOI || p.sameAOI
  }

  /** The Apply button's class, chosen by its own condition. */
  function ApplyLook(p: Props): (r: Look)
    ensures r == Active <==> !ApplyDisabled(p)
  {
    if p.hasAOI && !p.sameAOI then Active else Greyed
  }

  function ToggleLabel(p: Props): (r: string)
    ensures r == "Cancel Drawing" <==> p.isDrawing
    ensures r == "Start Drawing" <==> !p.isDrawing
  {
    if p.isDrawing then "Cancel Drawing" else "Start Drawing"
  }

  function ToggleTone(p: Props): (r: Tone)
    ensures r == Red <==> ToggleLabel(p) == "Cancel Drawing"
  {
    if p.isDrawing then Red else Blue
  }

  /** The callback a click on a button invokes; a disabled button invokes none. */
  function OnClick(p: Props, b: Button): (r: Option<Action>)
    ensures b == DrawToggle ==> r == Some(ToggleDrawing)
    ensures b == ApplyButton ==> (r == Some(ApplyAoi) <==> p.hasAOI && !p.sameAOI)
    ensures b == ApplyButton && r.None? ==> ApplyLook(p) == Greyed
  {
    match b
    case DrawToggle => Some(ToggleDrawing)
    case ApplyButton => if ApplyDisabled(p) then None else Some(ApplyAoi)
  }

  /**
    When the parent flips `isDrawing` in answer to the toggle, the label and
    the colour switch and the Apply button is unaffected.
   */
  lemma ToggleSwitchesLabel(p: Props)
    ensures var q := p.(isDrawing := !p.isDrawing);
      && ToggleLabel(q) != ToggleLabel(p) && ToggleTone(q) != ToggleTone(p)
      && OnClick(q, ApplyButton) == OnClick(p, ApplyButton)
  {
  }
}
