/** Which lines are accepted, and what modes they set: the rules of modal groups, axis commands and
    repeated words, for lines of any length. */
module WordRules {
  import opened WordSpec
  import opened Words
  import BufferLine
  import Decimal

  // ---------------------------------------------------------------- a line as a list of words

  /** The words of a line up to its end, or up to the first place where no word can be read. */
  datatype Lexed = Lexed(words: seq<Word>, stopped: Refused)

  function Lex(line: string, i: nat): Lexed
    decreases |line| - i
  {
    var letter := Decimal.CharAt(line, i);
    if letter == '\0' then Lexed([], No)
    else if !('A' <= letter <= 'Z') then Lexed([], Because(ExpectedCommandLetter))
    else
      var n := Decimal.Read(line, i + 1);
      if n.NoNumber? then Lexed([], Because(BadNumberFormat))
      else
        var rest := Lex(line, n.cursor);
        Lexed([Word(letter, n.value)] + rest.words, rest.stopped)
  }

  function LexedLine(line: string): Lexed {
    Lex(line, if IsJog(line) then 3 else 0)
  }

  /** The words are taken in order; where none can be read the line is refused. */
  lemma {:induction false} LineIsWords(b: Block, line: string, i: nat)
    ensures var x, r := Lex(line, i), Interpret(b, line, i);
      var f := Fold(b, x.words);
      r == if f.Rejected? || x.stopped.No? then f else Rejected(x.stopped.status)
    decreases |line| - i
  {
    hide Step, Decimal.Read;
    var letter := Decimal.CharAt(line, i);
    if letter != '\0' && 'A' <= letter <= 'Z' {
      var n := Decimal.Read(line, i + 1);
      if n.Number? {
        Decimal.ReadAdvances(line, i + 1);
        var w, rest := Word(letter, n.value), Lex(line, n.cursor);
        var r := Step(b, w);
        assert ([w] + rest.words)[0] == w && ([w] + rest.words)[1..] == rest.words;
        if r.Accepted? {
          LineIsWords(r.block, line, n.cursor);
        }
      }
    }
  }

  // ---------------------------------------------------------------- one word

  lemma StepExactly(b: Block, w: Word)
    ensures Step(b, w).Accepted? <==> Proper(w) && Fits(b, w, BitOf(w, b.wordBit))
  {
    hide SetMode, Setting, TableGroup, Code, MantissaOf, IntOf, AxisCommandOf, ModeOf;
    GroupsAreTracked(w);
  }

  /** What an accepted word adds to the masks. */
  lemma StepTracks(b: Block, w: Word, c: Block)
    requires Step(b, w) == Accepted(c)
    ensures (c.axisCommand != None) == (b.axisCommand != None || UsesAxes(w)) && c.wordBit == BitOf(w, b.wordBit)
    ensures c.commandWords == if IsCommand(w) then Track(b.commandWords, c.wordBit) else b.commandWords
    ensures c.valueWords == if IsCommand(w) then b.valueWords else Track(b.valueWords, c.wordBit)
  {
    hide TableGroup, Setting, ModeOf, Code, MantissaOf, IntOf;
    GroupsAreTracked(w);
  }

  /** A word still fits after an accepted one exactly when it fitted before and the two do not clash. */
  lemma FitsAfter(b: Block, w: Word, c: Block, v: Word, j: nat)
    requires Step(b, w) == Accepted(c)
    ensures Fits(c, v, j) <==> Fits(b, v, j) && !Clash(w, BitOf(w, b.wordBit), v, j)
  {
    StepTracks(b, w, c);
    hide Step, BitOf, IsCommand, UsesAxes;
  }

  // ---------------------------------------------------------------- all words of a line

  /** The bits that track the words of a line, when `last` was used before it. */
  function Bits(words: seq<Word>, last: nat): (bits: seq<nat>)
    ensures |bits| == |words|
  {
    if words == [] then [] else [BitOf(words[0], last)] + Bits(words[1..], BitOf(words[0], last))
  }

  predicate NoClash(words: seq<Word>, bits: seq<nat>)
    requires |bits| == |words|
  {
    forall j, k :: 0 <= j < k < |words| ==> !Clash(words[j], bits[j], words[k], bits[k])
  }

  predicate AllProper(words: seq<Word>) {
    forall k :: 0 <= k < |words| ==> Proper(words[k])
  }

  predicate AllFit(b: Block, words: seq<Word>, bits: seq<nat>)
    requires |bits| == |words|
  {
    forall k :: 0 <= k < |words| ==> Fits(b, words[k], bits[k])
  }

  /** A list of words is accepted exactly when each is legal by itself and fits, and no two clash. */
  lemma {:induction false} FoldExactly(b: Block, words: seq<Word>)
    ensures var bits := Bits(words, b.wordBit);
      Fold(b, words).Accepted? <==> AllProper(words) && AllFit(b, words, bits) && NoClash(words, bits)
    decreases |words|
  {
    hide Step, Fits, Clash, Proper, BitOf;
    if words != [] {
      var w, rest, bits := words[0], words[1..], Bits(words, b.wordBit);
      StepExactly(b, w);
      if Proper(w) && Fits(b, w, bits[0]) {
        var c := Step(b, w).block;
        StepTracks(b, w, c);
        assert bits[1..] == Bits(rest, c.wordBit);
        FoldExactly(c, rest);
        RestFits(b, w, c, words, bits);
      }
    }
  }

  /** What it means for the rest that the first word is accepted. */
  lemma RestFits(b: Block, w: Word, c: Block, words: seq<Word>, bits: seq<nat>)
    requires Step(b, w) == Accepted(c) && words != [] && words[0] == w && Proper(w) && |bits| == |words|
    requires bits[0] == BitOf(w, b.wordBit) && Fits(b, w, bits[0])
    ensures AllProper(words) <==> AllProper(words[1..])
    ensures AllFit(b, words, bits) && NoClash(words, bits)
      <==> AllFit(c, words[1..], bits[1..]) && NoClash(words[1..], bits[1..])
  {
    hide Step, Fits, Clash, Proper, BitOf;
    var rest, tail := words[1..], bits[1..];
    forall k | 0 <= k < |rest|
      ensures rest[k] == words[k + 1] && tail[k] == bits[k + 1]
      ensures Fits(c, rest[k], tail[k]) <==>
        Fits(b, words[k + 1], bits[k + 1])
        && !Clash(w, bits[0], words[k + 1], bits[k + 1])
    {
      FitsAfter(b, w, c, rest[k], tail[k]);
    }
    if AllFit(c, rest, tail) && NoClash(rest, tail) {
      forall j, k | 0 <= j < k < |words|
        ensures !Clash(words[j], bits[j], words[k], bits[k])
      {
        assert Fits(c, rest[k - 1], tail[k - 1]);
        if j > 0 {
          assert words[j] == rest[j - 1] && bits[j] == tail[j - 1];
        }
      }
      forall k | 0 <= k < |words|
        ensures Fits(b, words[k], bits[k])
      {
        if k > 0 {
          assert Fits(c, rest[k - 1], tail[k - 1]);
        }
      }
    }
    if AllProper(rest) {
      forall k | 0 <= k < |words|
        ensures Proper(words[k])
      {
        if k > 0 {
          assert words[k] == rest[k - 1];
        }
      }
    }
  }

  lemma StartFits(state: Modal, jog: bool, wordBit: nat, words: seq<Word>, bits: seq<nat>)
    requires |bits| == |words|
    ensures AllFit(Start(state, jog, wordBit), words, bits)
  {
    hide UsesAxes, IsCommand;
  }

  /** A line of any length is accepted exactly when it is well formed, each word is legal by itself, at
      most one uses axis words, and no two commands and no two values are tracked by the same of the
      sixteen bits.  An M word from outside the table is tracked by the bit of the word before it. */
  lemma AcceptedExactlyWhen(state: Modal, line: string, wordBit: nat)
    ensures var x := LexedLine(line);
      Parsed(state, line, wordBit).Accepted? <==>
        x.stopped.No? && AllProper(x.words) && NoClash(x.words, Bits(x.words, wordBit))
  {
    hide Step, Fits, Clash, Proper, Lex, BitOf;
    var b, words := Start(state, IsJog(line), wordBit), LexedLine(line).words;
    LineIsWords(b, line, if IsJog(line) then 3 else 0);
    FoldExactly(b, words);
    StartFits(state, IsJog(line), wordBit, words, Bits(words, wordBit));
  }

  // ---------------------------------------------------------------- what that means by the table

  /** Two words that clash whatever stands around them: axis-using commands, commands of one modal
      group, or the same value letter, but for D and E, whose bits lie outside the mask. */
  predicate TableClash(v: Word, w: Word) {
    || (UsesAxes(v) && UsesAxes(w))
    || (Group(v) != NO_GROUP && Group(v) == Group(w))
    || (v.letter == w.letter && v.letter !in {'G', 'M', 'D', 'E'})
  }

  lemma {:induction false} BitsAre(words: seq<Word>, last: nat, k: nat)
    requires k < |words|
    ensures Bits(words, last)[k] == BitOf(words[k], if k == 0 then last else Bits(words, last)[k - 1])
    decreases k
  {
    hide BitOf;
    if k > 0 {
      BitsAre(words[1..], BitOf(words[0], last), k - 1);
    }
  }

  lemma BitsTellLetters(v: Word, w: Word)
    requires IsValueLetter(w.letter) && ValueBit(v.letter) == ValueBit(w.letter)
    ensures v.letter == w.letter
  {
  }

  lemma OnlyDAndEUntracked(letter: char)
    requires IsValueLetter(letter)
    ensures ValueBit(letter) < BITS <==> letter !in {'D', 'E'}
  {
  }

  /** For commands of the table and values the bits say what the table says. */
  lemma ClashIsByTable(v: Word, i: nat, w: Word, j: nat)
    requires Proper(v) && Proper(w)
    requires !Unknown(v) ==> i == BitOf(v, i)
    requires !Unknown(w) ==> j == BitOf(w, j)
    ensures TableClash(v, w) ==> Clash(v, i, w, j)
    ensures !Unknown(v) && !Unknown(w) ==> (TableClash(v, w) <==> Clash(v, i, w, j))
  {
    GroupsAreTracked(v);
    GroupsAreTracked(w);
    hide TableGroup, TableGroupM, Code, MantissaOf, IntOf, ValueBit;
    if !IsCommand(v) && !IsCommand(w) {
      OnlyDAndEUntracked(w.letter);
      if ValueBit(v.letter) == ValueBit(w.letter) {
        BitsTellLetters(v, w);
      }
    }
  }

  lemma BitKnown(words: seq<Word>, last: nat, k: nat)
    requires k < |words| && !Unknown(words[k])
    ensures var bit := Bits(words, last)[k];
      bit == BitOf(words[k], bit)
  {
    BitsAre(words, last, k);
    hide Group, ValueBit, Unknown;
  }

  predicate NoTableClash(words: seq<Word>) {
    forall j, k :: 0 <= j < k < |words| ==> !TableClash(words[j], words[k])
  }

  predicate AllKnown(words: seq<Word>) {
    forall k :: 0 <= k < |words| ==> !Unknown(words[k])
  }

  lemma PairByTable(words: seq<Word>, last: nat, j: nat, k: nat)
    requires AllProper(words) && j < k < |words|
    ensures var bits := Bits(words, last);
      && (TableClash(words[j], words[k]) ==> Clash(words[j], bits[j], words[k], bits[k]))
      && (AllKnown(words) ==> (TableClash(words[j], words[k]) <==> Clash(words[j], bits[j], words[k], bits[k])))
  {
    hide Clash, TableClash, Unknown, Proper, BitOf;
    var bits := Bits(words, last);
    if !Unknown(words[j]) {
      BitKnown(words, last, j);
    }
    if !Unknown(words[k]) {
      BitKnown(words, last, k);
    }
    ClashIsByTable(words[j], bits[j], words[k], bits[k]);
  }

  /** An accepted line is well formed, each of its words is legal by itself, no two of its command words
      are of one modal group, at most one of them uses axis words, and no value letter but D and E
      is repeated. */
  lemma AcceptedLine(state: Modal, line: string, wordBit: nat)
    requires Parsed(state, line, wordBit).Accepted?
    ensures LexedLine(line).stopped.No? && AllProper(LexedLine(line).words) && NoTableClash(LexedLine(line).words)
  {
    hide Clash, TableClash, Proper, Lex, Bits, AllKnown;
    AcceptedExactlyWhen(state, line, wordBit);
    var words := LexedLine(line).words;
    forall j, k | 0 <= j < k < |words|
      ensures !TableClash(words[j], words[k])
    {
      PairByTable(words, wordBit, j, k);
    }
  }

  /** Without M words from outside the table these conditions are also enough, whatever the order of
      the words and whatever bit was used before. */
  lemma AcceptedByTable(state: Modal, line: string, wordBit: nat)
    requires AllKnown(LexedLine(line).words)
    ensures var x := LexedLine(line);
      Parsed(state, line, wordBit).Accepted? <==> x.stopped.No? && AllProper(x.words) && NoTableClash(x.words)
  {
    hide Clash, TableClash, Proper, Lex, Bits, AllKnown;
    AcceptedExactlyWhen(state, line, wordBit);
    var words := LexedLine(line).words;
    if AllProper(words) {
      forall j, k | 0 <= j < k < |words|
        ensures TableClash(words[j], words[k])
          <==> Clash(words[j], Bits(words, wordBit)[j], words[k], Bits(words, wordBit)[k])
      {
        PairByTable(words, wordBit, j, k);
      }
    }
  }

  // ---------------------------------------------------------------- the modes a line sets

  lemma StepModes(b: Block, w: Word, c: Block, g: nat)
    requires Step(b, w) == Accepted(c) && g < NO_GROUP
    ensures ModeOf(c, g) == if Group(w) == g then Setting(w, ModeOf(b, g)) else ModeOf(b, g)
  {
    hide TableGroup, Code, MantissaOf, IntOf;
  }

  /** A group is left in the mode its one word sets; a group without a word keeps its mode. */
  lemma {:induction false} FoldModes(b: Block, words: seq<Word>, g: nat)
    requires Fold(b, words).Accepted? && g < NO_GROUP
    ensures var c := Fold(b, words).block;
      && ((forall k :: 0 <= k < |words| ==> Group(words[k]) != g) ==> ModeOf(c, g) == ModeOf(b, g))
      && forall k :: 0 <= k < |words| && Group(words[k]) == g ==> ModeOf(c, g) == Setting(words[k], ModeOf(b, g))
    decreases |words|
  {
    hide Step, Fits, Group, Setting, ModeOf, Clash, TableClash, Proper, Bits, AllKnown;
    if words != [] {
      var w, rest := words[0], words[1..];
      var a := Step(b, w).block;
      StepModes(b, w, a, g);
      FoldModes(a, rest, g);
      FoldExactly(b, words);
      forall k | 0 <= k < |rest|
        ensures rest[k] == words[k + 1] && (Group(w) == g ==> Group(rest[k]) != g)
      {
        PairByTable(words, b.wordBit, 0, k + 1);
        ClashInGroup(words[0], words[k + 1]);
      }
    }
  }

  lemma ClashInGroup(v: Word, w: Word)
    ensures !TableClash(v, w) && Group(v) < NO_GROUP ==> Group(v) != Group(w)
  {
  }

  /** The modes an accepted line leaves depend on which words are on it and not on their order. */
  lemma SameWordsSameModes(state: Modal, line: string, other: string, bit: nat, otherBit: nat, g: nat)
    requires Parsed(state, line, bit).Accepted? && Parsed(state, other, otherBit).Accepted?
    requires IsJog(line) == IsJog(other) && g < NO_GROUP
    requires forall w :: w in LexedLine(line).words <==> w in LexedLine(other).words
    ensures ModeOf(Parsed(state, line, bit).block, g) == ModeOf(Parsed(state, other, otherBit).block, g)
  {
    hide Step, Group, Setting, Lex;
    var b, c := Start(state, IsJog(line), bit), Start(state, IsJog(other), otherBit);
    var v, w := LexedLine(line).words, LexedLine(other).words;
    LineIsWords(b, line, if IsJog(line) then 3 else 0);
    LineIsWords(c, other, if IsJog(other) then 3 else 0);
    FoldModes(b, v, g);
    FoldModes(c, w, g);
    assert ModeOf(b, g) == ModeOf(c, g);
    hide ModeOf, Fold;
    if k :| 0 <= k < |v| && Group(v[k]) == g {
      assert v[k] in w;
      var j :| 0 <= j < |w| && w[j] == v[k];
    } else {
      forall j | 0 <= j < |w|
        ensures Group(w[j]) != g
      {
        assert w[j] in v;
      }
    }
  }

  // ---------------------------------------------------------------- numbers of command words

  /** The value of a word in hundredths. */
  function Hundredths(value: real): int {
    BufferLine.Round(100.0 * value)
  }

  /** A G word whose fraction is below 100 hundredths, as every accepted one but G49's is, is read as the
      number written exactly when that number is between -256 and 256. */
  lemma ReadAsWritten(value: real)
    requires MantissaOf(value) < 100
    ensures Hundredths(value) == 100 * IntOf(value) + MantissaOf(value) <==> -256.0 < value < 256.0
  {
    var i, t := IntOf(value), Trunc(value);
    var x := 100.0 * (value - i as real);
    assert x == 100.0 * value - (100 * i) as real;
    if value >= 0.0 {
      assert value < 256.0 ==> t == i;
    } else if value > -1.0 {
      assert t == 0 == i;
    }
  }

  /** Farther out a number can be taken for another: G16385 is read as G1. */
  lemma FarNumber()
    ensures IntOf(16385.0) == 1 && MantissaOf(16385.0) == 0 && Hundredths(16385.0) != 100
    ensures Group(Word('G', 16385.0)) == 1 && Setting(Word('G', 16385.0), 0) == 1
  {
    assert BufferLine.Round(100.0 * (16385.0 - 1.0)) == 1638400;
  }
}
