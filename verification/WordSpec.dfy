/** The words of a line of g-code: what one word means, and which words may stand together on a line. */
module WordSpec {
  import BufferLine

  datatype Word = Word(letter: char, value: real)

  datatype Status = ExpectedCommandLetter | BadNumberFormat | UnsupportedCommand | AxisCommandConflict
    | ValueNotInteger | ModalGroupViolation | WordRepeated | NegativeValue | MaxValueExceeded

  /** The modes a line can set (gc_modal_t; those with a single legal value are not kept). */
  datatype Modal = Modal(motion: nat, feedRate: nat, units: nat, distance: nat, plane: int,
                         toolLength: nat, coordSelect: int, programFlow: nat, coolant: nat)

  datatype AxisCommand = None | NonModal | MotionMode | ToolLengthOffset

  /** What has been gathered from the words read so far. `wordBit` is the bit last tracked. */
  datatype Block = Block(modal: Modal, nonModal: nat, values: map<char, real>, axisCommand: AxisCommand,
                         commandWords: set<nat>, valueWords: set<nat>, axisWords: set<char>, ijkWords: set<char>,
                           wordBit: nat)

  datatype Outcome = Accepted(block: Block) | Rejected(status: Status)

  // ---------------------------------------------------------------- numbers of command words

  function Trunc(x: real): int {
    if x >= 0.0 then x.Floor else -((-x).Floor)
  }

  /** The 8-bit integer part of a word's value. */
  function IntOf(value: real): (i: nat)
    ensures i < 0x100
  {
    Trunc(value) % 0x100
  }

  /** The 16-bit count of hundredths above the integer part. */
  function MantissaOf(value: real): (m: nat)
    ensures m < 0x1_0000
  {
    BufferLine.Round(100.0 * (value - IntOf(value) as real)) % 0x1_0000
  }

  /** No number of hundredths in the table. */
  const NO_CODE := 10000

  /** The command a G word names, in hundredths. Any G49.x is read as G49. */
  function Code(i: nat, m: nat): nat {
    if i == 49 then 4900 else if m < 100 && i < 100 then 100 * i + m else NO_CODE
  }

  const NO_GROUP := 15
  const BITS := 16

  /** Table 4 of NIST RS274/NGC version 3, for the commands Grbl knows: the modal groups, numbered by
      the bits that track them. */
  function TableGroup(code: nat): nat {
    if code in {400, 1000, 2800, 2810, 3000, 3010, 5300, 9200, 9210} then 0
    else if code in {0, 100, 200, 300, 3820, 3830, 3840, 3850, 8000} then 1
    else if code in {1700, 1800, 1900} then 2
    else if code in {9000, 9100} then 3
    else if code == 9110 then 4
    else if code in {9300, 9400} then 5
    else if code in {2000, 2100} then 6
    else if code == 4000 then 7
    else if code in {4310, 4900} then 8
    else if code in {5400, 5500, 5600, 5700, 5800, 5900} then 9
    else if code == 6100 then 10
    else NO_GROUP
  }

  function TableGroupM(i: nat): nat {
    if i in {0, 1, 2, 30} then 11 else if i in {3, 4, 5} then 12 else if i in {8, 9} then 13 else NO_GROUP
  }

  /** The modal group of a word; NO_GROUP for words that are in none. */
  function Group(w: Word): nat {
    if w.letter == 'G' then TableGroup(Code(IntOf(w.value), MantissaOf(w.value)))
    else if w.letter == 'M' && MantissaOf(w.value) == 0 then TableGroupM(IntOf(w.value))
    else NO_GROUP
  }

  /** G10, G28, G30 and G92, the motions G0 to G3 and G38.x, and the tool length commands G43.1 and
      G49 are the commands that use axis words. */
  predicate UsesAxes(w: Word) {
    && w.letter == 'G'
    && var i, m := IntOf(w.value), MantissaOf(w.value);
    i in {0, 1, 2, 3, 38, 43, 49} || (i in {10, 28, 30, 92} && m == 0)
  }

  function AxisCommandOf(w: Word): AxisCommand
    requires UsesAxes(w)
  {
    var i := IntOf(w.value);
    if i in {0, 1, 2, 3, 38} then MotionMode else if i in {43, 49} then ToolLengthOffset else NonModal
  }

  // ---------------------------------------------------------------- value words

  /** The bit that tracks a value letter. */
  function ValueBit(letter: char): nat {
    match letter
    case 'F' => 0 case 'I' => 1 case 'J' => 2 case 'K' => 3 case 'L' => 4 case 'N' => 5
    case 'P' => 6 case 'R' => 7 case 'S' => 8 case 'T' => 9 case 'X' => 10 case 'Y' => 11
    case 'Z' => 12 case 'A' => 13 case 'B' => 14 case 'C' => 15 case 'D' => 16 case 'E' => 17
    case _ => 18
  }

  predicate IsValueLetter(letter: char) {
    ValueBit(letter) < 18
  }

  /** The masks hold sixteen bits: a higher bit is never set, so never found. */
  predicate Tracked(bits: set<nat>, bit: nat) {
    bit < BITS && bit in bits
  }

  function Track(bits: set<nat>, bit: nat): set<nat> {
    if bit < BITS then bits + {bit} else bits
  }

  predicate IsAxisLetter(letter: char) {
    letter in {'X', 'Y', 'Z', 'A', 'B', 'C', 'D', 'E'}
  }

  function Stored(w: Word): real {
    if w.letter in {'L', 'T'} then IntOf(w.value) as real
    else if w.letter == 'N' then Trunc(w.value) as real
    else w.value
  }

  // ---------------------------------------------------------------- one word

  /** A command or value word that is legal by itself. */
  predicate Proper(w: Word) {
    if w.letter == 'G' then Group(w) != NO_GROUP
    else if w.letter == 'M' then MantissaOf(w.value) == 0
    else
      && IsValueLetter(w.letter)
      && (w.letter in {'F', 'N', 'P', 'T', 'S'} ==> w.value >= 0.0)
      && (w.letter == 'T' ==> w.value <= 255.0)
  }

  /** An M word that is not in the table: it is let through, and tracked by whatever bit was last used. */
  predicate Unknown(w: Word) {
    w.letter == 'M' && Group(w) == NO_GROUP
  }

  predicate IsCommand(w: Word) {
    w.letter == 'G' || w.letter == 'M'
  }

  /** The bit that tracks a word, when `last` was used before it. */
  function BitOf(w: Word, last: nat): nat {
    if !IsCommand(w) then ValueBit(w.letter) else if Unknown(w) then last else Group(w)
  }

  /** A word that the words gathered so far leave room for, when it is tracked by `bit`. */
  predicate Fits(b: Block, w: Word, bit: nat) {
    && (UsesAxes(w) ==> b.axisCommand == None)
    && !Tracked(if IsCommand(w) then b.commandWords else b.valueWords, bit)
  }

  /** Two words that cannot stand on one line, when they are tracked by `i` and `j`. */
  predicate Clash(v: Word, i: nat, w: Word, j: nat) {
    || (UsesAxes(v) && UsesAxes(w))
    || (IsCommand(v) == IsCommand(w) && i == j < BITS)
  }

  /** The mode a group is in. */
  function ModeOf(b: Block, g: nat): int {
    if g == 0 then b.nonModal
    else if g == 1 then b.modal.motion
    else if g == 2 then b.modal.plane
    else if g == 3 then b.modal.distance
    else if g == 5 then b.modal.feedRate
    else if g == 6 then b.modal.units
    else if g == 8 then b.modal.toolLength
    else if g == 9 then b.modal.coordSelect
    else if g == 11 then b.modal.programFlow
    else if g == 13 then b.modal.coolant
    else 0
  }

  /** The mode a command word puts its group in, when the group was in mode `was`. G28.1, G30.1 and
      G92.1 count as 38, 40 and 102; G38.2 to G38.5 as 140 to 143. M8 sets the flood bit. */
  function Setting(w: Word, was: int): int {
    var i, m, g := IntOf(w.value), MantissaOf(w.value), Group(w);
    if g == 0 then i + m
    else if g == 1 then if i == 38 then 138 + m / 10 else i
    else if g == 2 then i - 17
    else if g == 3 then i - 90
    else if g == 5 then 94 - i
    else if g == 6 then 21 - i
    else if g == 8 then if i == 49 then 0 else 1
    else if g == 9 then i - 54
    else if g == 11 then if i == 0 then 3 else if i == 1 then was else i
    else if g == 13 then if i == 9 then 0 else if was / 64 % 2 == 1 then was else was + 64
    else was
  }
}
