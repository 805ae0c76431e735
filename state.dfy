/** The states exchanged over a subscription's channel, and their printable names. */
module States {

  /** Go's `State` is an `int`; the named constants run consecutively from 1. */
  type State = int

  const WAITING: State := 1
  const ABORTED: State := 2
  const TIMEOUT: State := 3
  const OK: State := 4
  const READY: State := 5

  /** `State.String`: a fixed name for each constant and "Unknown" for every other value. */
  function String(s: State): (r: string)
    ensures r != "Unknown" <==> WAITING <= s <= READY
  {
    match s
    case 1 => "Waiting for events"
    case 2 => "Aborted connection due new connection"
    case 3 => "Aborted connection due timeout"
    case 4 => "Sent event(s)"
    case 5 => "Handler can be destroyed"
    case _ => "Unknown"
  }

  /** No two constants share a name, so a name identifies its state. */
  lemma StateNamesDistinct(a: State, b: State)
    requires WAITING <= a <= READY && WAITING <= b <= READY && a != b
    ensures String(a) != String(b)
  {
  }
}
