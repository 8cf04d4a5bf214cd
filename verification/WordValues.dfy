/** What an accepted line leaves behind besides the modes: the values, the axes, and why a line is
    turned down. */
module WordValues {
  import opened WordSpec
  import opened Words
  import opened WordRules
  import BufferLine

  // ---------------------------------------------------------------- one word

  /** F, I, J, K, P, R, S and the axis words keep their value; N loses its fraction; L and T keep the
      integer part modulo 256, which for an accepted T is all of it. */
  lemma StoredIs(w: Word)
    ensures w.letter !in {'L', 'N', 'T'} ==> Stored(w) == w.value
    ensures w.letter == 'N' && w.value >= 0.0 ==> Stored(w) <= w.value < Stored(w) + 1.0
    ensures w.letter in {'L', 'T'} && 0.0 <= w.value < 256.0 ==> Stored(w) <= w.value < Stored(w) + 1.0
    ensures w.letter in {'L', 'N', 'T'} ==> Stored(w) == Stored(w).Floor as real
  {
  }

  /** The integer part of a number is cut towards zero and taken modulo 256; the rest, in hundredths, is
      rounded to the nearest and taken modulo 65536. */
  lemma NumberParts(x: real, t: int, h: int)
    requires if x >= 0.0 then t as real <= x < t as real + 1.0 else t as real - 1.0 < x <= t as real
    requires BufferLine.IsNearest(h, 100.0 * (x - IntOf(x) as real))
    ensures Trunc(x) == t && (IntOf(x) - t) % 256 == 0 && IntOf(x) < 256
    ensures (MantissaOf(x) - h) % 65536 == 0 && MantissaOf(x) < 65536
  {
    BufferLine.RoundIsNearest(100.0 * (x - IntOf(x) as real), h);
    hide BufferLine.Round, BufferLine.IsNearest;
  }

  /** The commands that use axis words, by the command in hundredths, and what they use them for. */
  lemma AxisUsers(w: Word, code: nat)
    requires w.letter == 'G' && Proper(w) && code == Code(IntOf(w.value), MantissaOf(w.value))
    ensures UsesAxes(w) <==> code in {0, 100, 200, 300, 1000, 2800, 3000, 3820, 3830, 3840, 3850, 4310, 4900, 9200}
    ensures UsesAxes(w) ==> (AxisCommandOf(w) == MotionMode <==> TableGroup(code) == 1)
    ensures UsesAxes(w) ==> (AxisCommandOf(w) == ToolLengthOffset <==> TableGroup(code) == 8)
    ensures UsesAxes(w) ==> (AxisCommandOf(w) == NonModal <==> TableGroup(code) == 0)
  {
    hide MantissaOf, IntOf;
  }

  /** The G words there are, in hundredths. */
  lemma SupportedCommands(w: Word)
    requires w.letter == 'G'
    ensures Proper(w) <==>
      Code(IntOf(w.value), MantissaOf(w.value)) in
      {0, 100, 200, 300, 400, 1000, 1700, 1800, 1900, 2000, 2100, 2800, 2810, 3000, 3010, 3820, 3830, 3840, 3850, 4000,
       4310, 4900, 5300, 5400, 5500, 5600, 5700, 5800, 5900, 6100, 8000, 9000, 9100, 9110, 9200, 9210, 9300, 9400}
  {
    hide Code, MantissaOf, IntOf;
  }

  /** The groups that hold no mode: G40, G61 and G91.1 stand alone, and no G word shares a group with an M
      word.  The other groups are told apart by the modes they set. */
  lemma LoneGroups(v: Word, w: Word)
    requires Group(v) == Group(w) != NO_GROUP
    ensures v.letter == w.letter
    ensures var i, j := Code(IntOf(v.value), MantissaOf(v.value)), Code(IntOf(w.value), MantissaOf(w.value));
      v.letter == 'G' && i in {4000, 6100, 9110} ==> i == j
  {
    hide Code, MantissaOf, IntOf;
  }

  /** M words exclude each other as program flow, spindle or coolant. */
  lemma GroupsM(v: Word, w: Word, i: nat, j: nat)
    requires v.letter == w.letter == 'M' && i == IntOf(v.value) && j == IntOf(w.value)
    requires MantissaOf(v.value) == MantissaOf(w.value) == 0
    ensures Group(v) == Group(w) != NO_GROUP <==>
      (i in {0, 1, 2, 30} && j in {0, 1, 2, 30}) || (i in {3, 4, 5} && j in {3, 4, 5}) || (i in {8, 9} && j in {8, 9})
  {
    hide MantissaOf, IntOf;
  }

  /** The numbers of the modes in gc_modal_t, by the command in hundredths. */
  lemma ModeNumbers(w: Word, code: nat, was: int)
    requires w.letter == 'G' && code == Code(IntOf(w.value), MantissaOf(w.value))
    ensures code == 2000 ==> Setting(w, was) == 1
    ensures code == 2100 ==> Setting(w, was) == 0
    ensures code == 9300 ==> Setting(w, was) == 1
    ensures code == 9400 ==> Setting(w, was) == 0
    ensures code == 9000 ==> Setting(w, was) == 0
    ensures code == 9100 ==> Setting(w, was) == 1
    ensures code in {1700, 1800, 1900} ==> 100 * Setting(w, was) == code - 1700
    ensures code in {5400, 5500, 5600, 5700, 5800, 5900} ==> 100 * Setting(w, was) == code - 5400
    ensures code in {0, 100, 200, 300, 8000, 400, 1000, 2800, 3000, 5300, 9200} ==> 100 * Setting(w, was) == code
    ensures code in {2810, 3010, 9210} ==> Setting(w, was) == code / 100 + 10
    ensures code in {3820, 3830, 3840, 3850} ==> 10 * Setting(w, was) == code - 2420
    ensures code == 4310 ==> Setting(w, was) == 1
    ensures code == 4900 ==> Setting(w, was) == 0
  {
    hide MantissaOf, IntOf;
  }

  /** The same of M words: M0 pauses as 3, M2 and M30 end the program, M1 is ignored; M9 clears all
      coolant bits. */
  lemma ModeNumbersM(w: Word, was: int)
    requires w.letter == 'M' && MantissaOf(w.value) == 0 && was >= 0
    ensures IntOf(w.value) == 0 ==> Setting(w, was) == 3
    ensures IntOf(w.value) == 1 ==> Setting(w, was) == was
    ensures IntOf(w.value) in {2, 30} ==> Setting(w, was) == IntOf(w.value)
    ensures IntOf(w.value) == 9 ==> Setting(w, was) == 0
  {
    hide MantissaOf, IntOf;
  }

  /** M8 sets the flood bit, and leaves the bits above and below. */
  lemma FloodSet(w: Word, was: int, high: nat, bit: nat, low: nat)
    requires w.letter == 'M' && MantissaOf(w.value) == 0 && IntOf(w.value) == 8
    requires bit <= 1 && low < 64 && was == 128 * high + 64 * bit + low
    ensures Setting(w, was) == 128 * high + 64 + low
  {
    hide MantissaOf, IntOf;
    assert was / 64 == 2 * high + bit;
  }

  /** A jogging line starts in G1 and G94, whatever modes the program is in; every other line in the
      program's modes.  Neither starts with a command, an axis or a value. */
  lemma StartModes(state: Modal, jog: bool, wordBit: nat, g: nat)
    ensures var b := Start(state, jog, wordBit);
      && (jog ==> ModeOf(b, 1) == 1 && ModeOf(b, 5) == 0)
      && (!jog || g !in {1, 5} ==> ModeOf(b, g) == ModeOf(Start(state, false, wordBit), g))
      && (!jog ==> b.modal == state) && b.nonModal == 0 && b.values == map[] && b.axisCommand == None
      && b.commandWords == b.valueWords == {} && b.axisWords == b.ijkWords == {}
  {
  }

  /** A jogging line is read behind its "$J=", any other line from its start. */
  lemma ReadFrom(state: Modal, rest: string, wordBit: nat)
    ensures Parsed(state, "$J=" + rest, wordBit) == Interpret(Start(state, true, wordBit), "$J=" + rest, |"$J="|)
    ensures rest != "" && rest[0] != '$'
      ==> Parsed(state, rest, wordBit) == Interpret(Start(state, false, wordBit), rest, 0)
  {
    hide Interpret, Start;
    assert ("$J=" + rest)[0] == '$';
  }

  /** Why a value word is turned down. */
  lemma ValueRefused(b: Block, w: Word)
    requires !IsCommand(w)
    ensures var r, repeated := StepValue(b, w), Tracked(b.valueWords, ValueBit(w.letter));
      && (r == Rejected(UnsupportedCommand) <==> !IsValueLetter(w.letter))
      && (r == Rejected(MaxValueExceeded) <==> w.letter == 'T' && w.value > 255.0)
      && (r == Rejected(WordRepeated) <==> IsValueLetter(w.letter) && repeated && !(w.letter == 'T' && w.value > 255.0))
      && (r == Rejected(NegativeValue) <==> w.letter in {'F', 'N', 'P', 'T', 'S'} && w.value < 0.0 && !repeated)
  {
  }

  /** Why a G word is: a second command that uses axes comes first, whatever else is wrong. */
  lemma CommandRefused(b: Block, w: Word)
    requires w.letter == 'G'
    ensures var r, conflict := StepG(b, w), UsesAxes(w) && b.axisCommand != None;
      && (r == Rejected(AxisCommandConflict) <==> conflict)
      && (r == Rejected(ModalGroupViolation) <==> !conflict && Proper(w) && Group(w) in b.commandWords)
      && (r == Rejected(UnsupportedCommand) || r == Rejected(ValueNotInteger) <==> !conflict && !Proper(w))
  {
    hide TableGroup, Code, MantissaOf, IntOf;
  }

  /** A fraction the command cannot have makes the value no integer, if the command exists without it
      and takes no fraction at all; otherwise the command is unsupported. */
  lemma RefusalIs(b: Block, w: Word)
    requires w.letter == 'G'
    ensures var r, i, conflict := StepG(b, w), IntOf(w.value), UsesAxes(w) && b.axisCommand != None;
      && (r == Rejected(ValueNotInteger) <==>
           !conflict && !Proper(w) && TableGroup(100 * i) != NO_GROUP && i !in {28, 30, 61, 90, 91, 92})
      && (r == Rejected(UnsupportedCommand) <==>
           !conflict && !Proper(w) && (TableGroup(100 * i) == NO_GROUP || i in {28, 30, 61, 90, 91, 92}))
  {
    hide MantissaOf, IntOf, Setting, UsesAxes;
  }

  /** Why an M word is turned down: a fraction, or a second word of its group. */
  lemma MachineRefused(b: Block, w: Word)
    requires w.letter == 'M'
    ensures var r, bit := StepM(b, w), if Unknown(w) then b.wordBit else Group(w);
      && (r == Rejected(ValueNotInteger) <==> MantissaOf(w.value) != 0)
      && (r == Rejected(ModalGroupViolation) <==> MantissaOf(w.value) == 0 && bit < 16 && bit in b.commandWords)
      && (r.Accepted? || r == Rejected(ValueNotInteger) || r == Rejected(ModalGroupViolation))
  {
    hide TableGroupM, MantissaOf, IntOf, Setting;
  }

  // ---------------------------------------------------------------- a whole line

  /** What is no word: a character that is no capital letter, or a letter without a number.  What is one
      is read, and the line goes on behind its number. */
  lemma WordOrNot(b: Block, line: string, i: nat)
    requires i < |line| && line[i] != '\0'
    ensures var r, n := Interpret(b, line, i), Decimal.Read(line, i + 1);
      && (!('A' <= line[i] <= 'Z') ==> r == Rejected(ExpectedCommandLetter))
      && ('A' <= line[i] <= 'Z' && n.NoNumber? ==> r == Rejected(BadNumberFormat))
      && ('A' <= line[i] <= 'Z' && n.Number? ==>
           var s := Step(b, Word(line[i], n.value));
           if s.Accepted? then r == Interpret(s.block, line, n.cursor) else r == s)
  {
    Decimal.ReadAdvances(line, i + 1);
    hide Step, Decimal.Read;
  }

  /** The letter's value after one word. */
  lemma StepValues(b: Block, w: Word, c: Block, letter: char)
    requires Step(b, w) == Accepted(c)
    ensures letter in c.values <==> letter in b.values || (!IsCommand(w) && w.letter == letter)
    ensures letter in c.values ==>
      c.values[letter] == if !IsCommand(w) && w.letter == letter then Stored(w) else b.values[letter]
  {
    hide Group, Setting, MantissaOf, IntOf, Stored, UsesAxes, AxisCommandOf;
  }

  lemma StepAxes(b: Block, w: Word, c: Block, letter: char)
    requires Step(b, w) == Accepted(c)
    ensures letter in c.axisWords <==> letter in b.axisWords || (IsAxisLetter(letter) && w.letter == letter)
    ensures letter in c.ijkWords <==> letter in b.ijkWords || (letter in {'I', 'J', 'K'} && w.letter == letter)
    ensures c.axisCommand == if UsesAxes(w) then AxisCommandOf(w) else b.axisCommand
  {
    hide Group, Setting, MantissaOf, IntOf, Stored, AxisCommandOf;
  }

  ghost predicate OnLine(words: seq<Word>, letter: char) {
    exists k :: 0 <= k < |words| && words[k].letter == letter
  }

  lemma OnLineNext(words: seq<Word>, letter: char)
    requires words != []
    ensures OnLine(words, letter) <==> words[0].letter == letter || OnLine(words[1..], letter)
  {
    assert forall k :: 0 <= k < |words[1..]| ==> words[1..][k] == words[k + 1];
    if OnLine(words, letter) && words[0].letter != letter {
      var k :| 0 <= k < |words| && words[k].letter == letter;
      assert words[1..][k - 1].letter == letter;
    }
  }

  /** A letter without a word keeps the value it had. */
  lemma {:induction false} FoldKeepsValue(b: Block, words: seq<Word>, letter: char)
    requires Fold(b, words).Accepted? && letter !in {'G', 'M'} && !OnLine(words, letter)
    ensures var c := Fold(b, words).block;
      && (letter in c.values <==> letter in b.values)
      && (letter in c.values ==> c.values[letter] == b.values[letter])
    decreases |words|
  {
    hide Step, Stored;
    if words != [] {
      var a := Step(b, words[0]).block;
      StepValues(b, words[0], a, letter);
      OnLineNext(words, letter);
      FoldKeepsValue(a, words[1..], letter);
    }
  }

  /** A letter's value is that of the last word with it: of the only one, but for D and E. */
  lemma {:induction false} FoldValues(b: Block, words: seq<Word>, k: nat)
    requires Fold(b, words).Accepted? && k < |words| && !IsCommand(words[k])
    requires !OnLine(words[k + 1..], words[k].letter)
    ensures var c, letter := Fold(b, words).block, words[k].letter;
      letter in c.values && c.values[letter] == Stored(words[k])
    decreases |words|
  {
    hide Step, Stored, OnLine;
    var a, rest := Step(b, words[0]).block, words[1..];
    StepValues(b, words[0], a, words[k].letter);
    if k == 0 {
      FoldKeepsValue(a, rest, words[0].letter);
    } else {
      assert rest[k - 1 + 1..] == words[k + 1..];
      FoldValues(a, rest, k - 1);
    }
  }

  /** The axis words and the offsets of an accepted line are those on it, and its axis command is that of
      its one word that uses axes. */
  lemma {:induction false} FoldAxes(b: Block, words: seq<Word>, letter: char)
    requires Fold(b, words).Accepted?
    ensures var c := Fold(b, words).block;
      && (letter in c.axisWords <==> letter in b.axisWords || (IsAxisLetter(letter) && OnLine(words, letter)))
      && (letter in c.ijkWords <==> letter in b.ijkWords || (letter in {'I', 'J', 'K'} && OnLine(words, letter)))
      && ((forall k :: 0 <= k < |words| ==> !UsesAxes(words[k])) ==> c.axisCommand == b.axisCommand)
      && forall k :: 0 <= k < |words| && UsesAxes(words[k]) ==> c.axisCommand == AxisCommandOf(words[k])
    decreases |words|
  {
    hide Step, UsesAxes, AxisCommandOf;
    if words != [] {
      var w, rest := words[0], words[1..];
      var a := Step(b, w).block;
      StepAxes(b, w, a, letter);
      FoldAxes(a, rest, letter);
      OnLineNext(words, letter);
      assert forall k :: 0 <= k < |rest| ==> rest[k] == words[k + 1];
      if UsesAxes(w) {
        OneUsesAxes(b, words);
      }
    }
  }

  lemma OneUsesAxes(b: Block, words: seq<Word>)
    requires Fold(b, words).Accepted? && words != [] && UsesAxes(words[0])
    ensures forall k :: 1 <= k < |words| ==> !UsesAxes(words[k])
  {
    FoldExactly(b, words);
    var bits := Bits(words, b.wordBit);
    hide Fold, Bits, AllProper, AllFit, UsesAxes;
    forall k | 1 <= k < |words|
      ensures !UsesAxes(words[k])
    {
      assert !Clash(words[0], bits[0], words[k], bits[k]);
    }
  }
}
