/**
 The sixteen keys of DTMF signalling with the two frequencies of each (ITU-T Recommendation Q.23).
 */
module Keypad {

  /** A key, by the frequencies of its row and its column in hertz. */
  datatype Key = Key(low: int, high: int, code: char)

  const KEYS: seq<Key> :=
    [Key(697, 1209, '1'), Key(697, 1336, '2'), Key(697, 1477, '3'), Key(697, 1633, 'A'),
     Key(770, 1209, '4'), Key(770, 1336, '5'), Key(770, 1477, '6'), Key(770, 1633, 'B'),
     Key(852, 1209, '7'), Key(852, 1336, '8'), Key(852, 1477, '9'), Key(852, 1633, 'C'),
     Key(941, 1209, '*'), Key(941, 1336, '0'), Key(941, 1477, '#'), Key(941, 1633, 'D')]

  /** The frequencies of the rows from the top and of the columns from the left. */
  const ROWS: seq<int> := [697, 770, 852, 941]
  const COLUMNS: seq<int> := [1209, 1336, 1477, 1633]

  predicate IsKey(low: int, high: int, code: char) { Key(low, high, code) in KEYS }
}
