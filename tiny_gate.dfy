/** Robot 2's gate monitor: each drive cycle reduces the gate motor's position
    to an angle in `0 .. 359`, derives whether the gate is open from it, and
    writes the controller's screen only when that open flag changes. */
module TinyGate {

  /** One screen write: clear the screen, put the cursor on row 1, print the word. */
  datatype ScreenWrite = ShowOpen | ShowClosed

  /** `position % 360` on whole degrees. Python's `%` with a positive modulus
      is never negative, and neither is Dafny's. */
  function Angle(position: int): (a: int)
    ensures 0 <= a < 360
    ensures (position - a) % 360 == 0
  {
    position % 360
  }

  /** The band of angles in which the gate counts as open; every other angle
      (below 30 or above 330) counts as closed. */
  predicate InOpenBand(angle: int)
  {
    30 <= angle <= 330
  }

  /** The message that reports the flag value `open`. */
  function Shown(open: bool): ScreenWrite
  {
    if open then ShowOpen else ShowClosed
  }

  /** What a cycle writes when the flag goes from `was` to `now`. */
  function Announce(was: bool, now: bool): (w: seq<ScreenWrite>)
    ensures |w| <= 1
    ensures w != [] <==> was != now
    ensures w != [] ==> w[0] == Shown(now)
  {
    if was == now then [] else [Shown(now)]
  }

  /** The flag after the cycles that read `positions`, starting from `open0`. */
  function FinalOpen(open0: bool, positions: seq<int>): bool
  {
    if positions == [] then open0 else InOpenBand(Angle(positions[|positions| - 1]))
  }

  /** Every screen write made by the cycles that read `positions`, in order. */
  function Writes(open0: bool, positions: seq<int>): seq<ScreenWrite>
    decreases |positions|
  {
    if positions == [] then []
    else
      var before := positions[..|positions| - 1];
      Writes(open0, before) + Announce(FinalOpen(open0, before), InOpenBand(Angle(positions[|positions| - 1])))
  }

  /** The screen never repeats itself and always tells the truth: the writes
      alternate between "Open" and "Closed", the first one reports a change
      from the starting flag, the last one reports the current flag, and if
      nothing was written the flag has not changed. */
  lemma {:induction false} WritesAlternate(open0: bool, positions: seq<int>)
    ensures var w := Writes(open0, positions);
      (w == [] ==> FinalOpen(open0, positions) == open0) &&
      (w != [] ==> w[0] == Shown(!open0) && w[|w| - 1] == Shown(FinalOpen(open0, positions))) &&
      (forall j :: 0 < j < |w| ==> w[j] != w[j - 1])
    decreases |positions|
  {
    if positions != [] {
      var before := positions[..|positions| - 1];
      WritesAlternate(open0, before);
    }
  }

  /** Angles 10, 50, 340, 10 from a closed start: "Open" on reaching 50,
      "Closed" on reaching 340 (which lies above 330), nothing on 10. */
  lemma GateExample()
    ensures Writes(false, [10]) == []
    ensures Writes(false, [10, 50]) == [ShowOpen]
    ensures Writes(false, [10, 50, 340]) == [ShowOpen, ShowClosed]
    ensures Writes(false, [10, 50, 340, 10]) == [ShowOpen, ShowClosed]
  {
    assert [10, 50, 340, 10][..3] == [10, 50, 340];
    assert [10, 50, 340][..2] == [10, 50];
    assert [10, 50][..1] == [10];
  }

  /** Recalibration zeroes the gate motor's position, so the next cycle reads
      angle 0, which lies in the closed band: from an open flag that cycle
      writes "Closed", from a closed one it writes nothing. */
  lemma RecalibratedGateReadsClosed(open0: bool)
    ensures !FinalOpen(open0, [0])
    ensures Writes(open0, [0]) == if open0 then [ShowClosed] else []
  {
    assert [0][..0] == [];
  }

  class GateMonitor {
    var open: bool
    var screen: seq<ScreenWrite>

    /** The program starts with the gate taken to be closed and a blank screen. */
    constructor ()
      ensures !open && screen == []
    {
      open := false;
      screen := [];
    }

    /** The gate part of one drive cycle, given the gate motor's position in
        degrees: afterwards the flag says whether the angle is in the open
        band, and the screen was written once exactly when the flag changed. */
    method Step(position: int)
      modifies this
      ensures open == InOpenBand(Angle(position))
      ensures screen == old(screen) + Announce(old(open), open)
    {
      var angle := position % 360;
      if (angle < 30 || angle > 330) && open == true {
        screen := screen + [ShowClosed];
        open := false;
      } else if (angle >= 30 && angle <= 330) && open == false {
        screen := screen + [ShowOpen];
        open := true;
      }
    }

    /** The gate part of successive drive cycles, one per position read. */
    method Run(positions: seq<int>)
      modifies this
      ensures open == FinalOpen(old(open), positions)
      ensures screen == old(screen) + Writes(old(open), positions)
    {
      var i := 0;
      while i < |positions|
        invariant 0 <= i <= |positions|
        invariant open == FinalOpen(old(open), positions[..i])
        invariant screen == old(screen) + Writes(old(open), positions[..i])
      {
        assert positions[..i + 1][..i] == positions[..i];
        Step(positions[i]);
        i := i + 1;
      }
      assert positions[..|positions|] == positions;
    }
  }
}
