/**
 * The number of a +l line in 42-Ft_irc: the checker validates the first number it finds, the parser hands on
 * the fourth word, or the fourth and the fifth glued together.
 */
module FtLimit {
  import opened Text
  import opened Tokenizer
  import opened FtParser
  import opened FtSyntax
  import opened FtState
  import opened FtSteps
  import opened FtEffects
  import opened FtInvariant
  import opened FtHistory
  import opened DateFormat

  /** The number that `checkOnlyMode` looks at. */
  function CheckedNumber(m: string): int {
    match CutAt(FormatOf(Trim(m)), " ")
    case Whole => 0
    case Parts(_, mode) => if |mode| < 2 then 0 else Atoi(mode[2..])
  }

  /** The number that `execLimit` gets from `modeParse`. */
  function ReadNumber(m: string, unset: Int32): Int32 {
    if ParsedMode(m).None? then 0 else ToInt(ParsedMode(m).value.parameters, unset)
  }

  predicate Opening(word: string, channel: string) {
    Upper(word) == "MODE" && channel != "" && channel[0] == '#' && ' ' !in channel && Trimmed(channel)
  }

  function LimitWords(word: string, channel: string, blanks: seq<string>, n: nat, more: seq<string>): seq<string> {
    [word, channel, "+l"] + blanks + [Digits(n)] + more
  }

  /** A +l line: extra spaces before the number, then the number, then any other words. */
  predicate IsLimitLine(m: string, word: string, channel: string, blanks: seq<string>, n: nat, more: seq<string>,
                        end: string) {
    && Opening(word, channel) && (forall b <- blanks :: b == "") && Printed(more) && 0 < n < 0x8000_0000
    && (end == "" || end == CRLF) && m == Join(LimitWords(word, channel, blanks, n, more), " ") + end
  }

  /** The condition under which the number arrives. */
  predicate NumberKept(blanks: seq<string>, n: nat, more: seq<string>) {
    if more == [] then |blanks| <= 1
    else |blanks| == 0 && (|more| >= 2 || !IsDigit(CharAt(more[0], 0)) || n == 0x7fff_ffff)
  }

  /** The condition under which the parser hands on an empty text. */
  predicate NothingRead(blanks: seq<string>, more: seq<string>) {
    |blanks| >= 2 || (|blanks| == 1 && more != [])
  }

  // ---------------------------------------------------------------- reading numbers

  lemma {:induction false} DigitsGrow(s: string, acc: nat)
    ensures DigitsValue(s, acc, true).Some? && DigitsValue(s, acc, true).value >= acc
    ensures s != "" && IsDigit(s[0]) ==> DigitsValue(s, acc, true).value >= 10 * acc
  {
    if s != "" && IsDigit(s[0]) {
      DigitsGrow(s[1..], 10 * acc + (s[0] as int - '0' as int));
    }
  }

  /** A printed number with text after it, and white space before it. */
  lemma NumberOf(before: string, n: nat, after: string)
    requires AllSpace(before)
    ensures Number(before + (Digits(n) + after)) == DigitsValue(after, n, true)
  {
    hide Digits, DigitsValue, TrimLeft;
    var s := Digits(n) + after;
    assert s[0] == Digits(n)[0] && IsDigit(s[0]);
    TrimLeftPadded(before, s);
    DigitsRead(n, after, false);
  }

  lemma NumberEnds(after: string, n: nat)
    requires after == "" || !IsDigit(after[0])
    ensures DigitsValue(after, n, true) == Some(n)
  {
  }

  lemma SmallNumber(s: string, n: nat, unset: Int32)
    requires Number(s) == Some(n) && n < 0x8000_0000
    ensures Atoi(s) == n && ToInt(s, unset) == n
  {
    hide Number;
  }

  /** A number with a word glued to it reads as itself unless the word starts with a digit, or nothing larger fits. */
  lemma GluedNumber(n: nat, x: string, unset: Int32)
    requires 0 < n < 0x8000_0000 && x != ""
    ensures ToInt(Digits(n) + x, unset) == n <==> !IsDigit(x[0]) || n == 0x7fff_ffff
  {
    hide Number, Digits, DigitsValue;
    NumberOf("", n, x);
    assert "" + (Digits(n) + x) == Digits(n) + x;
    DigitsGrow(x, n);
    if !IsDigit(x[0]) {
      NumberEnds(x, n);
    }
  }

  lemma ReadPrinted(n: nat, unset: Int32)
    requires n < 0x8000_0000
    ensures ToInt(Digits(n), unset) == n && ToInt("", unset) == unset
  {
    PrintedNumber(n, unset);
  }

  // ---------------------------------------------------------------- what the parser reads

  lemma OpeningIsTrimmed(word: string, channel: string)
    requires Opening(word, channel)
    ensures Trimmed(word) && ' ' !in word && word != ""
  {
    CommandHasNoSpace(word);
    assert word[0] in word && word[|word| - 1] in word;
  }

  lemma DigitsPrinted(n: nat)
    ensures Trimmed(Digits(n)) && ' ' !in Digits(n) && Digits(n) != ""
  {
    hide Digits;
  }

  /** The words that the parser splits a printed MODE line into. */
  lemma ModeWords(m: string, ws: seq<string>, end: string)
    requires |ws| >= 3 && (end == "" || end == CRLF) && (forall w <- ws :: Trimmed(w) && ' ' !in w)
    requires ws[|ws| - 1] != "" && |ws[2]| >= 2 && ws[2][0] == '+' && m == Join(ws, " ") + end
    ensures ParsedMode(m) == Some(ModeInfo(ws[1], true, ws[2][1], Arguments(ws[3..])))
  {
    hide Join, Trim, Split, SplitAll, Trimmed;
    PrintedPieces(ws, end);
    TrimmedPieces(ws, end);
    SplitEndsWith(m, " ", ws[..|ws| - 1], ws[|ws| - 1] + end);
    var pieces := ws[..|ws| - 1] + [ws[|ws| - 1] + end];
    assert Words(m) == pieces;
    assert pieces[2][..2] == ws[2][..2] && pieces[2][0] == ws[2][0] && pieces[2][1] == ws[2][1];
  }

  /** The parameters of `modeParse` in terms of the words after the mode. */
  function Arguments(args: seq<string>): string {
    if |args| == 0 then "" else if |args| == 2 then args[0] + args[1] else args[0]
  }

  lemma EndsTrimmed(ws: seq<string>)
    requires ws != [] && ws[|ws| - 1] != "" && forall w <- ws :: Trimmed(w)
    ensures !IsSpace(ws[|ws| - 1][|ws[|ws| - 1]| - 1])
  {
    assert ws[|ws| - 1] in ws;
  }

  lemma LimitWordsOk(word: string, channel: string, blanks: seq<string>, n: nat, more: seq<string>)
    requires Opening(word, channel) && (forall b <- blanks :: b == "") && Printed(more)
    ensures var ws := LimitWords(word, channel, blanks, n, more);
            && (forall w <- ws :: Trimmed(w) && ' ' !in w)
            && ws[|ws| - 1] != "" && !IsSpace(ws[|ws| - 1][|ws[|ws| - 1]| - 1])
  {
    hide Digits;
    OpeningIsTrimmed(word, channel);
    DigitsPrinted(n);
    var ws := LimitWords(word, channel, blanks, n, more);
    assert ws[|ws| - 1] == if more == [] then Digits(n) else more[|more| - 1];
    forall w | w in ws ensures Trimmed(w) && ' ' !in w {
      assert w in [word, channel, "+l"] || w in blanks || w in [Digits(n)] || w in more;
    }
    assert more != [] ==> more[|more| - 1] in more;
    EndsTrimmed(ws);
  }

  /** The number arrives if and only if the condition holds, unless nothing is read. */
  lemma ArgumentsKept(blanks: seq<string>, n: nat, more: seq<string>, unset: Int32)
    requires (forall b <- blanks :: b == "") && Printed(more) && 0 < n < 0x8000_0000
    ensures var read := ToInt(Arguments(blanks + [Digits(n)] + more), unset);
            if NothingRead(blanks, more) then read == unset && !NumberKept(blanks, n, more)
            else read >= 0 && (read == n <==> NumberKept(blanks, n, more))
  {
    hide Digits, ToInt;
    var args := blanks + [Digits(n)] + more;
    ReadPrinted(n, unset);
    assert "" + Digits(n) == Digits(n);
    if |blanks| == 0 {
      assert more != [] ==> more[0] in more;
      assert args[0] == Digits(n) && (more != [] ==> args[1] == more[0]);
      if |more| == 1 {
        GluedNumber(n, more[0], unset);
        GluedIsPositive(n, more[0], unset);
      }
    } else {
      assert blanks[0] in blanks && args[0] == blanks[0];
      assert |blanks| == 1 ==> args[1] == Digits(n);
    }
  }

  lemma GluedIsPositive(n: nat, x: string, unset: Int32)
    ensures ToInt(Digits(n) + x, unset) >= 0
  {
    hide Number, Digits, DigitsValue;
    NumberOf("", n, x);
    assert "" + (Digits(n) + x) == Digits(n) + x;
    DigitsGrow(x, n);
  }

  // ---------------------------------------------------------------- what the checker sees

  /** Extra spaces are white space in front of what follows. */
  lemma {:induction false} BlanksAreSpaces(blanks: seq<string>, rest: seq<string>) returns (before: string)
    requires (forall b <- blanks :: b == "") && rest != []
    ensures AllSpace(before) && Join(blanks + rest, " ") == before + Join(rest, " ")
  {
    hide Join;
    if blanks == [] {
      before := "";
      assert blanks + rest == rest && "" + Join(rest, " ") == Join(rest, " ");
    } else {
      assert blanks[0] in blanks && forall b <- blanks[1..] :: b in blanks;
      var b := BlanksAreSpaces(blanks[1..], rest);
      before := " " + b;
      assert blanks + rest == [""] + (blanks[1..] + rest);
      JoinCons("", blanks[1..] + rest, " ");
      assert "" + " " + (b + Join(rest, " ")) == before + Join(rest, " ");
    }
  }

  /** The checker cuts a printed MODE line into its channel and the rest. */
  lemma ModeCut(m: string, word: string, channel: string, mode: string, end: string)
    requires Opening(word, channel) && mode != "" && !IsSpace(mode[|mode| - 1]) && (end == "" || end == CRLF)
    requires m == word + (" " + (channel + (" " + mode))) + end
    ensures CommandOf(m) == "MODE" && ' ' in m && Trim(m) == word + (" " + (channel + (" " + mode))) && ' ' in Trim(m)
    ensures CutAt(FormatOf(Trim(m)), " ") == Parts(channel, mode)
  {
    hide CutAt, Trim, FormatOf, Opening, CommandOf, Upper, SplitAll, TrimLeft;
    var format := channel + (" " + mode);
    OpeningIsTrimmed(word, channel);
    OpeningParts(word, channel);
    EndMoves(word, format, end);
    CutAfterWord(word, format + end);
    CommandIs(m, word, format + end);
    FormatEnds(channel, mode);
    LineTrimmed(m, word, format, end);
    CutAfterWord(word, format);
    FormatIs(word + (" " + format), word, format);
    CutAfterWord(channel, mode);
  }

  lemma EndMoves(word: string, format: string, end: string)
    ensures word + (" " + format) + end == word + (" " + (format + end))
    ensures (word + (" " + (format + end)))[|word|] == ' '
  {
  }

  lemma CommandIs(m: string, word: string, tail: string)
    requires CutAt(m, " ") == Parts(word, tail)
    ensures CommandOf(m) == Upper(word)
  {
    hide CutAt;
  }

  lemma FormatEnds(channel: string, mode: string)
    requires channel != "" && channel[0] == '#' && mode != ""
    ensures var format := channel + (" " + mode);
            format[|format| - 1] == mode[|mode| - 1] && TrimLeft(format) == format
  {
    var format := channel + (" " + mode);
    TrimLeftPadded("", format);
    assert "" + format == format;
  }

  lemma LineTrimmed(m: string, word: string, format: string, end: string)
    requires Trimmed(word) && word != "" && format != "" && !IsSpace(format[|format| - 1]) && (end == "" || end == CRLF)
    requires m == word + (" " + (format + end))
    ensures Trim(m) == word + (" " + format) && Trim(word + (" " + format)) == word + (" " + format) && ' ' in Trim(m)
  {
    hide Trim;
    var t := word + (" " + format);
    assert t[0] == word[0] && t[|t| - 1] == format[|format| - 1] && t[|word|] == ' ';
    TrimPadded("", t, end);
    assert "" + t + end == m;
    TrimIdentity(t);
  }

  lemma LimitAccepted(format: string, channel: string, mode: string)
    requires CutAt(format, " ") == Parts(channel, mode) && channel != "" && channel[0] == '#'
    requires |mode| > 2 && mode[0] == '+' && mode[1] == 'l' && Atoi(mode[2..]) != 0
    ensures OnlyMode(format)
  {
    hide CutAt, Atoi;
  }

  /** A printed line starting with a MODE word and a channel, as the checker cuts it. */
  lemma JoinOpening(word: string, channel: string, ws: seq<string>)
    requires ws != []
    ensures Join([word, channel] + ws, " ") == word + (" " + (channel + (" " + Join(ws, " "))))
  {
    hide Join;
    JoinCons(word, [channel] + ws, " ");
    JoinCons(channel, ws, " ");
    assert [word, channel] + ws == [word] + ([channel] + ws);
    var j := Join(ws, " ");
    assert channel + " " + j == channel + (" " + j);
    assert word + " " + (channel + (" " + j)) == word + (" " + (channel + (" " + j)));
  }

  lemma {:induction false} JoinEnds(ws: seq<string>)
    requires ws != [] && ws[|ws| - 1] != ""
    ensures Join(ws, " ") != "" && Join(ws, " ")[|Join(ws, " ")| - 1] == ws[|ws| - 1][|ws[|ws| - 1]| - 1]
  {
    hide Join;
    var init, last := ws[..|ws| - 1], ws[|ws| - 1];
    JoinSnoc(init, last, " ");
    assert ws == init + [last];
  }

  /** The text after `+l` starts with the number, whatever spaces stand before it and words after it. */
  lemma ModeNumber(blanks: seq<string>, n: nat, more: seq<string>)
    requires forall b <- blanks :: b == ""
    ensures Number(" " + Join(blanks + [Digits(n)] + more, " ")) == Some(n)
  {
    hide Join, Digits, Number, DigitsValue;
    var rest := [Digits(n)] + more;
    var before := BlanksAreSpaces(blanks, rest);
    assert blanks + [Digits(n)] + more == blanks + rest;
    var after := if more == [] then "" else " " + Join(more, " ");
    NumberFirst(n, more);
    assert " " + (before + (Digits(n) + after)) == (" " + before) + (Digits(n) + after);
    NumberOf(" " + before, n, after);
    NumberEnds(after, n);
  }

  lemma NumberFirst(n: nat, more: seq<string>)
    ensures Join([Digits(n)] + more, " ") == Digits(n) + if more == [] then "" else " " + Join(more, " ")
  {
    hide Digits, Join;
    if more == [] {
      JoinNothing(" ");
      JoinSnoc([], Digits(n), " ");
      assert [Digits(n)] + more == [] + [Digits(n)] && Digits(n) + "" == Digits(n);
    } else {
      JoinCons(Digits(n), more, " ");
      assert Digits(n) + " " + Join(more, " ") == Digits(n) + (" " + Join(more, " "));
    }
  }

  lemma LimitChecked(m: string, word: string, channel: string, blanks: seq<string>, n: nat, more: seq<string>,
                     end: string)
    requires IsLimitLine(m, word, channel, blanks, n, more, end)
    ensures CommandOf(m) == "MODE" && ' ' in m && ' ' in Trim(m) && OnlyMode(FormatOf(Trim(m))) && CheckedNumber(m) == n
  {
    hide Join, Digits, Trim, CutAt, FormatOf, OnlyMode, Atoi, CommandOf, Number, Opening;
    var args := blanks + [Digits(n)] + more;
    var mode := "+l" + (" " + Join(args, " "));
    LimitWordsOk(word, channel, blanks, n, more);
    assert LimitWords(word, channel, blanks, n, more) == [word, channel] + (["+l"] + args);
    JoinOpening(word, channel, ["+l"] + args);
    JoinCons("+l", args, " ");
    assert "+l" + " " + Join(args, " ") == mode;
    JoinEnds(args);
    assert mode[|mode| - 1] == Join(args, " ")[|Join(args, " ")| - 1];
    OpeningParts(word, channel);
    ModeCut(m, word, channel, mode, end);
    assert mode[2..] == " " + Join(args, " ");
    ModeNumber(blanks, n, more);
    SmallNumber(mode[2..], n, 0);
    LimitAccepted(FormatOf(Trim(m)), channel, mode);
  }

  lemma OpeningParts(word: string, channel: string)
    requires Opening(word, channel)
    ensures Upper(word) == "MODE" && channel != "" && channel[0] == '#' && ' ' !in channel
  {
  }

  /**
   * Every such line passes the checker with its number, and the parser reads the channel, the sign and the letter.
   * The parser hands on the number that was checked, whatever an unset variable holds, if and only if `NumberKept`
   * holds; where nothing is read, the result is the unset variable.
   */
  lemma LimitReadIff(m: string, word: string, channel: string, blanks: seq<string>, n: nat, more: seq<string>,
                     end: string)
    requires IsLimitLine(m, word, channel, blanks, n, more, end)
    ensures CommandOf(m) == "MODE" && ' ' in Trim(m) && OnlyMode(FormatOf(Trim(m))) && CheckedNumber(m) == n
    ensures ParsedMode(m) == Some(ModeInfo(channel, true, 'l', Arguments(blanks + [Digits(n)] + more)))
    ensures (forall unset: Int32 :: ReadNumber(m, unset) == CheckedNumber(m)) <==> NumberKept(blanks, n, more)
    ensures forall unset: Int32 ::
              if NothingRead(blanks, more) then ReadNumber(m, unset) == unset
              else ReadNumber(m, unset) == CheckedNumber(m) <==> NumberKept(blanks, n, more)
  {
    hide Join, Digits, Trim, FormatOf, OnlyMode, CommandOf, CheckedNumber, ParsedMode, ToInt, NumberKept, Opening;
    hide Trimmed;
    LimitChecked(m, word, channel, blanks, n, more, end);
    LimitWordsOk(word, channel, blanks, n, more);
    var ws := LimitWords(word, channel, blanks, n, more);
    ModeWords(m, ws, end);
    assert ws[3..] == blanks + [Digits(n)] + more;
    forall unset: Int32
      ensures if NothingRead(blanks, more) then ReadNumber(m, unset) == unset && !NumberKept(blanks, n, more)
              else ReadNumber(m, unset) == CheckedNumber(m) <==> NumberKept(blanks, n, more)
    {
      ArgumentsKept(blanks, n, more, unset);
    }
    var other: Int32 := if n == 1 then 2 else 1;
    assert NothingRead(blanks, more) ==> ReadNumber(m, other) == other != n;
    assert ReadNumber(m, other) == CheckedNumber(m) || !NumberKept(blanks, n, more);
  }

  // ---------------------------------------------------------------- the attached number

  /** A number attached to the letter passes the checker, but the parser reads only the words after it. */
  lemma AttachedLimitIsLost(m: string, word: string, channel: string, n: nat, more: seq<string>, end: string)
    requires Opening(word, channel) && Printed(more) && 0 < n < 0x8000_0000 && (end == "" || end == CRLF)
    requires m == Join([word, channel, "+l" + Digits(n)] + more, " ") + end
    ensures CommandOf(m) == "MODE" && ' ' in m && ' ' in Trim(m) && OnlyMode(FormatOf(Trim(m))) && CheckedNumber(m) == n
    ensures ParsedMode(m) == Some(ModeInfo(channel, true, 'l', Arguments(more)))
    ensures more == [] ==> forall unset: Int32 :: ReadNumber(m, unset) == unset
  {
    hide Join, Digits, Trim, CutAt, FormatOf, OnlyMode, Atoi, CommandOf, Number, Opening, ParsedMode, Trimmed;
    var letter := "+l" + Digits(n);
    var ws := [word, channel, letter] + more;
    AttachedWordsOk(word, channel, n, more);
    var mode := Join([letter] + more, " ");
    assert ws == [word, channel] + ([letter] + more);
    JoinOpening(word, channel, [letter] + more);
    JoinEnds([letter] + more);
    OpeningParts(word, channel);
    ModeCut(m, word, channel, mode, end);
    AttachedNumber(n, more);
    SmallNumber(mode[2..], n, 0);
    LimitAccepted(FormatOf(Trim(m)), channel, mode);
    ModeWords(m, ws, end);
    assert ws[3..] == more;
    forall unset: Int32 ensures ToInt("", unset) == unset {
      NoNumber(unset);
    }
  }

  lemma AttachedWordsOk(word: string, channel: string, n: nat, more: seq<string>)
    requires Opening(word, channel) && Printed(more)
    ensures var ws := [word, channel, "+l" + Digits(n)] + more;
            && (forall w <- ws :: Trimmed(w) && ' ' !in w)
            && ws[|ws| - 1] != "" && !IsSpace(ws[|ws| - 1][|ws[|ws| - 1]| - 1])
  {
    hide Digits;
    OpeningIsTrimmed(word, channel);
    DigitsPrinted(n);
    var letter := "+l" + Digits(n);
    assert Trimmed(letter) && ' ' !in letter;
    var ws := [word, channel, letter] + more;
    assert ws[|ws| - 1] == if more == [] then letter else more[|more| - 1];
    assert more != [] ==> more[|more| - 1] in more;
    EndsTrimmed(ws);
  }

  lemma AttachedNumber(n: nat, more: seq<string>)
    ensures var mode := Join(["+l" + Digits(n)] + more, " ");
            |mode| > 2 && mode[0] == '+' && mode[1] == 'l' && Number(mode[2..]) == Some(n)
  {
    hide Join, Digits, Number, DigitsValue;
    var letter := "+l" + Digits(n);
    var after := if more == [] then "" else " " + Join(more, " ");
    if more == [] {
      JoinNothing(" ");
      JoinSnoc([], letter, " ");
      assert [letter] + more == [] + [letter];
    } else {
      JoinCons(letter, more, " ");
    }
    var mode := Join([letter] + more, " ");
    assert mode == letter + after && mode[2..] == "" + (Digits(n) + after);
    NumberOf("", n, after);
    NumberEnds(after, n);
  }

  // ---------------------------------------------------------------- the line as a step

  /** A MODE line that passes the checks reaches its handler. */
  lemma ModeRuns<Id>(w: World<Id>, m: string, fd: int, c: Id)
    requires CommandOf(m) == "MODE" && ' ' in Trim(m) && OnlyMode(FormatOf(Trim(m)))
    requires ByFd(w.info, w.live, fd) == Some(c) && Of(w.info, c).login
    ensures LineStep(w, m, fd) == ModeStep(w, m, fd)
  {
    hide CommandOf, Trim, OnlyMode, FormatOf, ByFd, ModeStep;
  }

  /** The l mode of an operator sets the limit to the number that was read. */
  lemma LimitStepIs<Id>(w: World<Id>, m: string, fd: int, c: Id, i: nat, channel: string, args: string)
    requires Inv(w) && CommandOf(m) == "MODE" && ' ' in m && ' ' in Trim(m) && OnlyMode(FormatOf(Trim(m)))
    requires ByFd(w.info, w.live, fd) == Some(c) && Of(w.info, c).login
    requires ParsedMode(m) == Some(ModeInfo(channel, true, 'l', args))
    requires ByName(w.channels, channel) == Some(i) && Rules(w.info, w.channels[i], fd)
    ensures LineStep(w, m, fd) == Some(With(w, i, w.channels[i].(limit := LimitOf(ToInt(args, w.unset)))))
  {
    hide Inv, CommandOf, Trim, OnlyMode, FormatOf, ByFd, ByName, ModeStep, LineStep, ParsedMode, ToInt, Rules, With;
    ModeRuns(w, m, fd, c);
    LimitTakesEffect(w, m, fd, i);
  }

  /** The line makes the limit of channel `i` the number `n`, when an unset variable holds `unset`. */
  ghost predicate Becomes<Id>(w: World<Id>, unset: Int32, m: string, fd: int, i: nat, n: nat)
    requires i < |w.channels|
  {
    var v := w.(unset := unset);
    LineStep(v, m, fd) == Some(With(v, i, v.channels[i].(limit := n)))
  }

  lemma BecomesOne<Id>(w: World<Id>, unset: Int32, m: string, fd: int, i: nat, n: nat, l: nat)
    requires i < |w.channels| && Becomes(w, unset, m, fd, i, l)
    ensures Becomes(w, unset, m, fd, i, n) <==> n == l
  {
    hide LineStep;
    var v := w.(unset := unset);
    assert With(v, i, v.channels[i].(limit := n)).channels[i].limit == n;
    assert With(v, i, v.channels[i].(limit := l)).channels[i].limit == l;
  }

  lemma LimitBecomes<Id>(w: World<Id>, fd: int, c: Id, i: nat, m: string, word: string, channel: string,
                         blanks: seq<string>, n: nat, more: seq<string>, end: string, unset: Int32)
    requires Inv(w) && ByFd(w.info, w.live, fd) == Some(c) && Of(w.info, c).login
    requires ByName(w.channels, channel) == Some(i) && Rules(w.info, w.channels[i], fd)
    requires IsLimitLine(m, word, channel, blanks, n, more, end)
    ensures Becomes(w, unset, m, fd, i, LimitOf(ReadNumber(m, unset)))
  {
    hide ByFd, ByName, Rules, LineStep, CommandOf, Trim, OnlyMode, FormatOf, CheckedNumber, ParsedMode, ToInt;
    hide LiveOk, NamesOk, ChannelsOk, Digits, NumberKept, LimitOf;
    LimitReadIff(m, word, channel, blanks, n, more, end);
    LimitChecked(m, word, channel, blanks, n, more, end);
    LimitStepIs(w.(unset := unset), m, fd, c, i, channel, Arguments(blanks + [Digits(n)] + more));
  }

  /**
   * An accepted +l line of an operator always takes effect. The limit becomes the number in the line, whatever an
   * unset variable holds, if and only if `NumberKept` holds; where nothing is read, it becomes that variable.
   */
  lemma LimitBecomesIff<Id>(w: World<Id>, fd: int, c: Id, i: nat, m: string, word: string, channel: string,
                            blanks: seq<string>, n: nat, more: seq<string>, end: string)
    requires Inv(w) && ByFd(w.info, w.live, fd) == Some(c) && Of(w.info, c).login
    requires ByName(w.channels, channel) == Some(i) && Rules(w.info, w.channels[i], fd)
    requires IsLimitLine(m, word, channel, blanks, n, more, end)
    ensures (forall unset: Int32 :: Becomes(w, unset, m, fd, i, n)) <==> NumberKept(blanks, n, more)
    ensures forall unset: Int32 ::
              if NothingRead(blanks, more) then Becomes(w, unset, m, fd, i, LimitOf(unset))
              else Becomes(w, unset, m, fd, i, n) <==> NumberKept(blanks, n, more)
  {
    var kept, silent := NumberKept(blanks, n, more), NothingRead(blanks, more);
    assert 0 < n < 0x8000_0000;
    hide *;
    forall unset: Int32
      ensures if silent then !kept && Becomes(w, unset, m, fd, i, LimitOf(unset))
              else Becomes(w, unset, m, fd, i, n) <==> kept
      ensures silent ==> (Becomes(w, unset, m, fd, i, n) <==> n == unset)
    {
      LimitBecomesFor(w, fd, c, i, m, word, channel, blanks, n, more, end, unset);
    }
    assert silent ==> !Becomes(w, if n == 1 then 2 else 1, m, fd, i, n);
    assert Becomes(w, 0, m, fd, i, n) || !Becomes(w, 0, m, fd, i, n);
  }

  lemma LimitBecomesFor<Id>(w: World<Id>, fd: int, c: Id, i: nat, m: string, word: string, channel: string,
                            blanks: seq<string>, n: nat, more: seq<string>, end: string, unset: Int32)
    requires Inv(w) && ByFd(w.info, w.live, fd) == Some(c) && Of(w.info, c).login
    requires ByName(w.channels, channel) == Some(i) && Rules(w.info, w.channels[i], fd)
    requires IsLimitLine(m, word, channel, blanks, n, more, end)
    ensures if NothingRead(blanks, more) then
              && !NumberKept(blanks, n, more) && Becomes(w, unset, m, fd, i, LimitOf(unset))
              && (Becomes(w, unset, m, fd, i, n) <==> n == unset)
            else Becomes(w, unset, m, fd, i, n) <==> NumberKept(blanks, n, more)
  {
    assert 0 < n < 0x8000_0000 && (NothingRead(blanks, more) ==> !NumberKept(blanks, n, more));
    hide *;
    LimitReadIff(m, word, channel, blanks, n, more, end);
    LimitBecomes(w, fd, c, i, m, word, channel, blanks, n, more, end, unset);
    BecomesOne(w, unset, m, fd, i, n, LimitOf(ReadNumber(m, unset)));
    LimitIsNumber(ReadNumber(m, unset), n);
  }

  lemma LimitIsNumber(v: Int32, n: nat)
    requires n < 0x8000_0000
    ensures n == LimitOf(v) <==> n == v
  {
  }

  /** An accepted +l with the number attached makes the limit what an unset variable holds. */
  lemma AttachedLimitIsUnset<Id>(w: World<Id>, fd: int, c: Id, i: nat, m: string, word: string, channel: string,
                                 n: nat, end: string)
    requires Inv(w) && ByFd(w.info, w.live, fd) == Some(c) && Of(w.info, c).login
    requires ByName(w.channels, channel) == Some(i) && Rules(w.info, w.channels[i], fd)
    requires Opening(word, channel) && 0 < n < 0x8000_0000 && (end == "" || end == CRLF)
    requires m == Join([word, channel, "+l" + Digits(n)], " ") + end
    ensures LineStep(w, m, fd) == Some(With(w, i, w.channels[i].(limit := LimitOf(w.unset))))
  {
    hide Inv, ByFd, ByName, Rules, LineStep, CommandOf, Trim, OnlyMode, FormatOf, CheckedNumber, ParsedMode, LimitOf;
    hide Digits, Join, Opening;
    assert [word, channel, "+l" + Digits(n)] + [] == [word, channel, "+l" + Digits(n)];
    AttachedLimitIsLost(m, word, channel, n, [], end);
    LimitStepIs(w, m, fd, c, i, channel, "");
    NoNumber(w.unset);
  }

  lemma NoNumber(unset: Int32)
    ensures ToInt("", unset) == unset
  {
  }
}
