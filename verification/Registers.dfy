/**
 The fifteen combinations of the R2 register signals (Tables 5 and 6 of ITU-T Recommendation Q.441), by code.
 */
module Registers {

  /** A signal: its code, and its two frequencies in each direction, in hertz. */
  datatype Signal = Signal(code: char, forward: (int, int), backward: (int, int))

  const SIGNALS: seq<Signal> :=
    [Signal('1', (1380, 1500), (1140, 1020)), Signal('2', (1380, 1620), (1140, 900)),
     Signal('3', (1500, 1620), (1020, 900)), Signal('4', (1380, 1740), (1140, 780)),
     Signal('5', (1500, 1740), (1020, 780)), Signal('6', (1620, 1740), (900, 780)),
     Signal('7', (1380, 1860), (1140, 660)), Signal('8', (1500, 1860), (1020, 660)),
     Signal('9', (1620, 1860), (900, 660)), Signal('0', (1740, 1860), (780, 660)),
     Signal('B', (1380, 1980), (1140, 540)), Signal('C', (1500, 1980), (1020, 540)),
     Signal('D', (1620, 1980), (900, 540)), Signal('E', (1740, 1980), (780, 540)),
     Signal('F', (1860, 1980), (660, 540))]

  /** The six frequencies of a direction in the order in which they are detected. */
  const FORWARD: seq<int> := [1380, 1500, 1620, 1740, 1860, 1980]
  const BACKWARD: seq<int> := [1140, 1020, 900, 780, 660, 540]

  /** The signal with the frequencies at two places, in both directions. */
  predicate IsSignal(code: char, i: int, j: int) {
    0 <= i < j < 6 && Signal(code, (FORWARD[i], FORWARD[j]), (BACKWARD[i], BACKWARD[j])) in SIGNALS
  }
}
