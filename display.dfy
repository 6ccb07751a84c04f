/** The colours and the sign prefix that the dashboard components choose between. */
module Display {

  /** The palette of the components, one constructor per hex colour they use. */
  datatype Colour =
    | Emerald    // '#10b981', "green"
    | Amber      // '#f59e0b'
    | Red        // '#ef4444'
    | Slate      // '#94a3b8', the neutral delta colour
    | Blue       // '#3b82f6'
    | Purple     // '#a855f7'
    | Grey       // '#64748b', the fallback waterfall colour

  /** The CSS colour written into the style attribute. */
  function Hex(c: Colour): (h: string)
    ensures |h| == 7 && h[0] == '#'
  {
    match c
    case Emerald => "#10b981"
    case Amber => "#f59e0b"
    case Red => "#ef4444"
    case Slate => "#94a3b8"
    case Blue => "#3b82f6"
    case Purple => "#a855f7"
    case Grey => "#64748b"
  }

  /** Red and green exchanged, every other colour kept. */
  function SwapEnds(c: Colour): Colour
  {
    match c
    case Red => Emerald
    case Emerald => Red
    case _ => c
  }

  /** The prefix written before a signed amount: '+' for zero and above, nothing below zero
      (the number's own formatting supplies the minus sign). */
  function SignPrefix(value: real): (s: string)
    ensures s == "+" <==> value >= 0.0
    ensures s == "" <==> value < 0.0
  {
    if value >= 0.0 then "+" else ""
  }
}
