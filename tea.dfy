/** The one piece of the Bubble Tea runtime the transition functions talk to: the command they return. */
module Tea {

  /** `nil`, `tea.Quit`, or the spinner's command for its next frame (batch commands are not modelled). */
  datatype Cmd = NoCmd | Quit | SpinnerTick
}
