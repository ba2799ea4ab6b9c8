/**
 * Tailwind colour classes, reduced to the colour family they name. Every
 * badge of the dashboard is a label plus one of these tones.
 */
module Styles {
  datatype Tone = Danger | Warning | Success | DriverAccent | AdminAccent

  /** A rendered badge: the text shown and the colour family of its classes. */
  datatype Tag = Tag(text: string, tone: Tone)

  /** How alarming a tone is when it is used as a status colour; higher is worse. */
  function Severity(t: Tone): nat {
    match t
    case Danger => 3
    case Warning => 2
    case DriverAccent => 1
    case Success => 0
    case AdminAccent => 0
  }
}
