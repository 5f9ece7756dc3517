/**
 * The badge colour families and status icons the panels pick from. Each badge
 * class string of the program (`bg-X-50 text-X-700 border-X-200`) is one tone X.
 */
module Tones {
  datatype Tone = Green | Yellow | Red | Blue | Purple | Slate

  datatype Icon = CheckCircle | AlertCircle | XCircle | ClockIcon
}
