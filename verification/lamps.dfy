/**
  The two indicator lamps the serial bridge keeps in memory: "vétel"
  (reception, lit when the microcontroller's `<UICV>` token puts the server
  into reception mode) and "műsor"
  (programme, lit while an announcement is played).
 */
module Lamps {

  datatype Lamp = Vetel | Musor

  /** The server's `lampStates` record. */
  datatype LampPair = LampPair(vetel: bool, musor: bool)

  /** The value the server starts with: both lamps dark. */
  const AllOff: LampPair := LampPair(false, false)

  /** The lamp that is not `lamp`. */
  function Other(lamp: Lamp): (o: Lamp)
    ensures o != lamp
  {
    match lamp
    case Vetel => Musor
    case Musor => Vetel
  }

  /** Reads one lamp of the pair, as `lampStates[lamp]` does. */
  function Get(p: LampPair, lamp: Lamp): bool
  {
    match lamp
    case Vetel => p.vetel
    case Musor => p.musor
  }

  /** Writes one lamp of the pair, as `lampStates[lamp] = state` does:
      the named lamp takes the new value and the other one keeps its own. */
  function Set(p: LampPair, lamp: Lamp, state: bool): (r: LampPair)
    ensures Get(r, lamp) == state
    ensures Get(r, Other(lamp)) == Get(p, Other(lamp))
    ensures forall l: Lamp :: Get(r, l) == (if l == lamp then state else Get(p, l))
  {
    match lamp
    case Vetel => LampPair(state, p.musor)
    case Musor => LampPair(p.vetel, state)
  }

  /** Writing a lamp's own value back leaves the pair as it was. */
  lemma SetCurrentIsNoOp(p: LampPair, lamp: Lamp)
    ensures Set(p, lamp, Get(p, lamp)) == p
  {
  }

  /** The last write to a lamp wins; an earlier write to the same lamp leaves no trace. */
  lemma SetSetSameLamp(p: LampPair, lamp: Lamp, a: bool, b: bool)
    ensures Set(Set(p, lamp, a), lamp, b) == Set(p, lamp, b)
  {
  }
}
