/** Reading the words of one line of g-code, with the checks made as each word is read. */
module Words {
  import opened WordSpec
  import Decimal

  // ---------------------------------------------------------------- the reading, word by word

  function SetMode(b: Block, g: nat, v: int): (c: Block)
    requires g in {0, 1, 3, 5, 6, 8, 11, 13} ==> v >= 0
  {
    if g == 0 then b.(nonModal := v)
    else if g == 1 then b.(modal := b.modal.(motion := v))
    else if g == 2 then b.(modal := b.modal.(plane := v))
    else if g == 3 then b.(modal := b.modal.(distance := v))
    else if g == 5 then b.(modal := b.modal.(feedRate := v))
    else if g == 6 then b.(modal := b.modal.(units := v))
    else if g == 8 then b.(modal := b.modal.(toolLength := v))
    else if g == 9 then b.(modal := b.modal.(coordSelect := v))
    else if g == 11 then b.(modal := b.modal.(programFlow := v))
    else if g == 13 then b.(modal := b.modal.(coolant := v))
    else b
  }

  /** Why a G word that is not in the table is turned down. */
  function Refusal(i: nat): Status {
    if i in {0, 1, 2, 3, 4, 10, 17, 18, 19, 20, 21, 40, 53, 54, 55, 56, 57, 58, 59, 80, 93, 94} then ValueNotInteger
    else UnsupportedCommand
  }

  function StepG(b: Block, w: Word): Outcome
    requires w.letter == 'G'
  {
    var g := Group(w);
    if UsesAxes(w) && b.axisCommand != None then Rejected(AxisCommandConflict)
    else if g == NO_GROUP then Rejected(Refusal(IntOf(w.value)))
    else if g in b.commandWords then Rejected(ModalGroupViolation)
    else Accepted(SetMode(b, g, Setting(w, ModeOf(b, g)))
                  .(axisCommand := if UsesAxes(w) then AxisCommandOf(w) else b.axisCommand,
                    commandWords := b.commandWords + {g}, wordBit := g))
  }

  function StepM(b: Block, w: Word): Outcome
    requires w.letter == 'M'
  {
    var g := if Group(w) == NO_GROUP then b.wordBit else Group(w);
    if MantissaOf(w.value) > 0 then Rejected(ValueNotInteger)
    else if Tracked(b.commandWords, g) then Rejected(ModalGroupViolation)
    else Accepted(SetMode(b, Group(w), Setting(w, ModeOf(b, Group(w))))
                  .(commandWords := Track(b.commandWords, g), wordBit := g))
  }

  function StepValue(b: Block, w: Word): Outcome {
    var bit := ValueBit(w.letter);
    if !IsValueLetter(w.letter) then Rejected(UnsupportedCommand)
    else if w.letter == 'T' && w.value > 255.0 then Rejected(MaxValueExceeded)
    else if Tracked(b.valueWords, bit) then Rejected(WordRepeated)
    else if w.letter in {'F', 'N', 'P', 'T', 'S'} && w.value < 0.0 then Rejected(NegativeValue)
    else Accepted(b.(values := b.values[w.letter := Stored(w)], valueWords := Track(b.valueWords, bit), wordBit := bit,
                     axisWords := if IsAxisLetter(w.letter) then b.axisWords + {w.letter} else b.axisWords,
                     ijkWords := if w.letter in {'I', 'J', 'K'} then b.ijkWords + {w.letter} else b.ijkWords))
  }

  function Step(b: Block, w: Word): Outcome {
    if w.letter == 'G' then StepG(b, w) else if w.letter == 'M' then StepM(b, w) else StepValue(b, w)
  }

  /** All words, in order. */
  function Fold(b: Block, words: seq<Word>): Outcome
    decreases |words|
  {
    if words == [] then Accepted(b)
    else
      var r := Step(b, words[0]);
      if r.Accepted? then Fold(r.block, words[1..]) else r
  }

  /** The rest of a line, from a cursor on. */
  function Interpret(b: Block, line: string, i: nat): Outcome
    decreases |line| - i
  {
    var letter := Decimal.CharAt(line, i);
    if letter == '\0' then Accepted(b)
    else if !('A' <= letter <= 'Z') then Rejected(ExpectedCommandLetter)
    else
      var n := Decimal.Read(line, i + 1);
      if n.NoNumber? then Rejected(BadNumberFormat)
      else
        var r := Step(b, Word(letter, n.value));
        if r.Accepted? then Interpret(r.block, line, n.cursor) else r
  }

  /** Nothing read yet. A jogging line starts in modes G1 and G94. `wordBit` has no defined value. */
  function Start(state: Modal, jog: bool, wordBit: nat): Block {
    Block(if jog then state.(motion := 1, feedRate := 0) else state, 0, map[], None, {}, {}, {}, {}, wordBit)
  }

  function IsJog(line: string): bool {
    Decimal.CharAt(line, 0) == '$'
  }

  function Parsed(state: Modal, line: string, wordBit: nat): Outcome {
    Interpret(Start(state, IsJog(line), wordBit), line, if IsJog(line) then 3 else 0)
  }

  /** Whether a word was refused, and why. */
  datatype Refused = No | Because(status: Status)

  class Parser {
    /** gc_state.modal: the modes the program is in. */
    var state: Modal

    // gc_block
    var modal: Modal
    var nonModal: nat
    var values: map<char, real>

    // the tracking variables of gc_execute_line
    var axisCommand: AxisCommand
    var commandWords: set<nat>
    var valueWords: set<nat>
    var axisWords: set<char>
    var ijkWords: set<char>
    var wordBit: nat

    ghost function Now(): Block
      reads this
    {
      Block(modal, nonModal, values, axisCommand, commandWords, valueWords, axisWords, ijkWords, wordBit)
    }

    constructor (initial: Modal)
      ensures state == initial
    {
      state := initial;
      modal, nonModal, values := initial, 0, map[];
      axisCommand, commandWords, valueWords := None, {}, {};
      axisWords, ijkWords, wordBit := {}, {}, 0;
    }

    /** What a step of the reading does: a refusal is reported, and nothing is promised of the block,
        which the caller drops. */
    ghost predicate Done(refused: Refused, r: Outcome)
      reads this
    {
      match refused
      case No => r == Accepted(Now())
      case Because(status) => r == Rejected(status)
    }

    /** A G word that the switch has recognized, with what it left of the mantissa, or its refusal. */
    ghost predicate Switched(was: Block, w: Word, refused: Refused, mantissa: nat)
      requires w.letter == 'G'
      reads this
    {
      if refused.Because? then StepG(was, w) == Rejected(refused.status)
      else if mantissa > 0 then StepG(was, w) == Rejected(ValueNotInteger)
      else
        && Group(w) != NO_GROUP && wordBit == Group(w)
        && (UsesAxes(w) ==> was.axisCommand == None)
        && Now() == SetMode(was, wordBit, Setting(w, ModeOf(was, wordBit)))
                    .(axisCommand := if UsesAxes(w) then AxisCommandOf(w) else was.axisCommand, wordBit := wordBit)
    }

    /** G4, G10, G28, G30, G53 and G92. */
    method SwitchNonModal(w: Word, i: nat, m: nat) returns (refused: Refused, mantissa: nat)
      requires w.letter == 'G' && i == IntOf(w.value) && m == MantissaOf(w.value) && i in {10, 28, 30, 92, 4, 53}
      modifies this`nonModal, this`axisCommand, this`wordBit
      ensures Switched(old(Now()), w, refused, mantissa)
    {
      refused, mantissa := No, m;
      if i in {10, 28, 30, 92} && mantissa == 0 {
        if axisCommand != None {
          return Because(AxisCommandConflict), mantissa;
        }
        axisCommand := NonModal;
      }
      wordBit := 0;
      nonModal := i;
      if i == 28 || i == 30 || i == 92 {
        if !(mantissa == 0 || mantissa == 10) {
          return Because(UnsupportedCommand), mantissa;
        }
        nonModal := nonModal + mantissa;
        mantissa := 0;
      }
    }

    /** G0 to G3, G38 and G80. */
    method SwitchMotion(w: Word, i: nat, m: nat) returns (refused: Refused, mantissa: nat)
      requires w.letter == 'G' && i == IntOf(w.value) && m == MantissaOf(w.value) && i in {0, 1, 2, 3, 38, 80}
      modifies this`modal, this`axisCommand, this`wordBit
      ensures Switched(old(Now()), w, refused, mantissa)
    {
      refused, mantissa := No, m;
      if i != 80 {
        if axisCommand != None {
          return Because(AxisCommandConflict), mantissa;
        }
        axisCommand := MotionMode;
      }
      wordBit := 1;
      modal := modal.(motion := i);
      if i == 38 {
        if !(mantissa == 20 || mantissa == 30 || mantissa == 40 || mantissa == 50) {
          return Because(UnsupportedCommand), mantissa;
        }
        modal := modal.(motion := modal.motion + mantissa / 10 + 100);
        mantissa := 0;
      }
    }

    /** G43 and G49. */
    method SwitchToolLength(w: Word, i: nat, m: nat) returns (refused: Refused, mantissa: nat)
      requires w.letter == 'G' && i == IntOf(w.value) && m == MantissaOf(w.value) && i in {43, 49}
      modifies this`modal, this`axisCommand, this`wordBit
      ensures Switched(old(Now()), w, refused, mantissa)
    {
      refused, mantissa := No, m;
      wordBit := 8;
      if axisCommand != None {
        return Because(AxisCommandConflict), mantissa;
      }
      axisCommand := ToolLengthOffset;
      if i == 49 {
        modal := modal.(toolLength := 0);
      } else if mantissa == 10 {
        modal := modal.(toolLength := 1);
      } else {
        return Because(UnsupportedCommand), mantissa;
      }
      mantissa := 0;
    }

    /** The switch over the numbers of G words; `mantissa` is zeroed where a fraction is legal. */
    method SwitchG(w: Word, i: nat, m: nat) returns (refused: Refused, mantissa: nat)
      requires w.letter == 'G' && i == IntOf(w.value) && m == MantissaOf(w.value)
      modifies this`modal, this`nonModal, this`axisCommand, this`wordBit
      ensures Switched(old(Now()), w, refused, mantissa)
    {
      refused, mantissa := No, m;
      if i in {10, 28, 30, 92, 4, 53} {
        refused, mantissa := SwitchNonModal(w, i, m);
      } else if i in {0, 1, 2, 3, 38, 80} {
        refused, mantissa := SwitchMotion(w, i, m);
      } else if i in {17, 18, 19} {
        wordBit := 2;
        modal := modal.(plane := i - 17);
      } else if i in {90, 91} {
        if mantissa == 0 {
          wordBit := 3;
          modal := modal.(distance := i - 90);
        } else {
          wordBit := 4;
          if mantissa != 10 || i == 90 {
            return Because(UnsupportedCommand), mantissa;
          }
          mantissa := 0;
        }
      } else if i in {93, 94} {
        wordBit := 5;
        modal := modal.(feedRate := 94 - i);
      } else if i in {20, 21} {
        wordBit := 6;
        modal := modal.(units := 21 - i);
      } else if i == 40 {
        wordBit := 7;
      } else if i in {43, 49} {
        refused, mantissa := SwitchToolLength(w, i, m);
      } else if i in {54, 55, 56, 57, 58, 59} {
        wordBit := 9;
        modal := modal.(coordSelect := i - 54);
      } else if i == 61 {
        wordBit := 10;
        if mantissa != 0 {
          return Because(UnsupportedCommand), mantissa;
        }
      } else {
        return Because(UnsupportedCommand), mantissa;
      }
    }

    /** A G word. */
    method ReadG(w: Word) returns (refused: Refused)
      requires w.letter == 'G'
      modifies this`modal, this`nonModal, this`axisCommand, this`wordBit, this`commandWords
      ensures Done(refused, StepG(old(Now()), w))
    {
      var mantissa;
      refused, mantissa := SwitchG(w, IntOf(w.value), MantissaOf(w.value));
      if refused.Because? {
        return;
      }
      if mantissa > 0 {
        return Because(ValueNotInteger);
      }
      GroupsAreTracked(w);
      if Tracked(commandWords, wordBit) {
        return Because(ModalGroupViolation);
      }
      commandWords := Track(commandWords, wordBit);
    }

    /** An M word. */
    method ReadM(w: Word) returns (refused: Refused)
      requires w.letter == 'M'
      modifies this`modal, this`wordBit, this`commandWords
      ensures Done(refused, StepM(old(Now()), w))
    {
      var i, mantissa := IntOf(w.value), MantissaOf(w.value);
      if mantissa > 0 {
        return Because(ValueNotInteger);
      }
      if i in {0, 1, 2, 30} {
        wordBit := 11;
        if i == 0 {
          modal := modal.(programFlow := 3);
        } else if i != 1 {
          modal := modal.(programFlow := i);
        }
      } else if i in {3, 4, 5} {
        wordBit := 12;
      } else if i in {8, 9} {
        wordBit := 13;
        if i == 8 {
          modal := modal.(coolant := if modal.coolant / 64 % 2 == 1 then modal.coolant else modal.coolant + 64);
        } else {
          modal := modal.(coolant := 0);
        }
      }
      if Tracked(commandWords, wordBit) {
        return Because(ModalGroupViolation);
      }
      commandWords := Track(commandWords, wordBit);
      refused := No;
    }

    /** Any other word. */
    method ReadValue(w: Word) returns (refused: Refused)
      modifies this`values, this`wordBit, this`valueWords, this`axisWords, this`ijkWords
      ensures Done(refused, StepValue(old(Now()), w))
    {
      var letter := w.letter;
      if !IsValueLetter(letter) {
        return Because(UnsupportedCommand);
      }
      wordBit := ValueBit(letter);
      if letter == 'T' && w.value > 255.0 {
        return Because(MaxValueExceeded);
      }
      values := values[letter := Stored(w)];
      if IsAxisLetter(letter) {
        axisWords := axisWords + {letter};
      }
      if letter in {'I', 'J', 'K'} {
        ijkWords := ijkWords + {letter};
      }
      if Tracked(valueWords, wordBit) {
        return Because(WordRepeated);
      }
      if wordBit in {ValueBit('F'), ValueBit('N'), ValueBit('P'), ValueBit('T'), ValueBit('S')} {
        ValueBitsDiffer(letter);
        if w.value < 0.0 {
          return Because(NegativeValue);
        }
      }
      valueWords := Track(valueWords, wordBit);
      refused := No;
    }

    /** Step 1 of gc_execute_line: a fresh block in the program's modes. */
    method Begin(line: string) returns (charCounter: nat)
      modifies this`modal, this`nonModal, this`values, this`axisCommand, this`commandWords,
               this`valueWords, this`axisWords, this`ijkWords
      ensures Now() == Start(state, IsJog(line), old(wordBit)) && charCounter == if IsJog(line) then 3 else 0
    {
      nonModal, values, modal := 0, map[], state;
      axisCommand, axisWords, ijkWords := None, {}, {};
      commandWords, valueWords := {}, {};
      charCounter := 0;
      if Decimal.CharAt(line, 0) == '$' {
        modal := modal.(motion := 1, feedRate := 0);
        charCounter := 3;
      }
    }

    /** The first two steps of gc_execute_line. The program's own modes are only read. */
    method ParseWords(line: string) returns (refused: Refused)
      modifies this`modal, this`nonModal, this`values, this`axisCommand, this`commandWords,
               this`valueWords, this`axisWords, this`ijkWords, this`wordBit
      ensures Done(refused, Parsed(state, line, old(wordBit)))
    {
      var charCounter := Begin(line);
      hide Step, Decimal.Read, Start;
      ghost var whole := Parsed(state, line, old(wordBit));
      while Decimal.CharAt(line, charCounter) != '\0'
        invariant Interpret(Now(), line, charCounter) == whole
        decreases |line| - charCounter
      {
        var letter := Decimal.CharAt(line, charCounter);
        if letter < 'A' || letter > 'Z' {
          return Because(ExpectedCommandLetter);
        }
        ghost var before := charCounter;
        charCounter := charCounter + 1;
        var ok, value;
        ok, value, charCounter := Decimal.ReadFloat(line, charCounter);
        if !ok {
          return Because(BadNumberFormat);
        }
        Decimal.ReadAdvances(line, before + 1);
        refused := ReadWord(Word(letter, value));
        if refused.Because? {
          return;
        }
      }
      refused := No;
    }

    /** The switch over letters. */
    method ReadWord(w: Word) returns (refused: Refused)
      modifies this`modal, this`nonModal, this`values, this`axisCommand, this`commandWords,
               this`valueWords, this`axisWords, this`ijkWords, this`wordBit
      ensures Done(refused, Step(old(Now()), w))
    {
      hide StepG, StepM, StepValue;
      if w.letter == 'G' {
        refused := ReadG(w);
      } else if w.letter == 'M' {
        refused := ReadM(w);
      } else {
        refused := ReadValue(w);
      }
    }
  }

  lemma GroupsAreTracked(w: Word)
    ensures Group(w) <= NO_GROUP
  {
  }

  lemma ValueBitsDiffer(letter: char)
    requires ValueBit(letter) in {ValueBit('F'), ValueBit('N'), ValueBit('P'), ValueBit('T'), ValueBit('S')}
    ensures letter in {'F', 'N', 'P', 'T', 'S'}
  {
  }
}
