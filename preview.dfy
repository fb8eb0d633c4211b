/**
 * The device switch shared by the generate page, the playground and the IDE:
 * the width the preview frame takes in each mode.
 */
module Preview {

  datatype PreviewMode = Desktop | Tablet | Mobile

  /** `getPreviewWidth`: a fixed width for phones and tablets, the full pane otherwise. */
  function PreviewWidth(m: PreviewMode): (w: string)
    ensures m == Mobile <==> w == "375px"
    ensures m == Tablet <==> w == "768px"
    ensures m == Desktop <==> w == "100%"
  {
    match m
    case Mobile => "375px"
    case Tablet => "768px"
    case Desktop => "100%"
  }

  /** Each mode has its own width, so the frame's width tells the mode back. */
  lemma PreviewWidthInjective(a: PreviewMode, b: PreviewMode)
    ensures PreviewWidth(a) == PreviewWidth(b) ==> a == b
  {
  }
}
