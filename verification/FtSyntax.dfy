/** Where the checker and the parser of 42-Ft_irc read the same line differently, and where they agree. */
module FtSyntax {
  import opened Text
  import opened Tokenizer
  import opened FtParser
  import DateFormat

  // ---------------------------------------------------------------- what parse recovers

  /** Words as a client prints them. */
  predicate Printed(words: seq<string>) {
    forall w <- words :: w != "" && Trimmed(w) && ' ' !in w
  }

  lemma {:induction false} SpaceFree(ws: seq<string>)
    requires forall w <- ws :: ' ' !in w
    ensures FreeOf(ws, " ")
  {
    forall w | w in ws ensures !Contains(w, " ") {
      ContainsChar(w, ' ');
    }
  }

  /** The pieces of a printed line: its words, the last one with the line end. */
  lemma PrintedPieces(ws: seq<string>, end: string)
    requires |ws| >= 1 && (end == "" || end == CRLF) && forall w <- ws :: ' ' !in w
    ensures SplitAll(Join(ws, " ") + end, " ") == ws[..|ws| - 1] + [ws[|ws| - 1] + end]
  {
    hide SplitAll, Join, CutAt;
    SpaceFree(ws);
    CharUnbordered(' ');
    SplitOfJoin(ws, " ");
    SplitAppend(Join(ws, " "), ' ', end);
    var last := ws[|ws| - 1] + end;
    assert ' ' !in last;
    ContainsChar(last, ' ');
    SplitWhole(last, " ");
  }

  lemma TrimmedPieces(ws: seq<string>, end: string)
    requires |ws| >= 1 && (end == "" || end == CRLF) && forall w <- ws :: Trimmed(w)
    ensures forall k :: 0 <= k < |ws| ==> Trim((ws[..|ws| - 1] + [ws[|ws| - 1] + end])[k]) == ws[k]
  {
    hide Trim, Trimmed;
    forall k | 0 <= k < |ws| ensures Trim((ws[..|ws| - 1] + [ws[|ws| - 1] + end])[k]) == ws[k] {
      assert Trimmed(ws[k]);
      TrimPadded("", ws[k], end);
      TrimIdentity(ws[k]);
      assert "" + ws[k] + end == ws[k] + end;
    }
  }

  /**
   * `parse` gives back the words that a line was printed from, unless the line has four words or more,
   * the last of them is empty and no line end follows.
   */
  lemma ParseRecovers(ws: seq<string>, end: string)
    requires |ws| >= 2 && (end == "" || end == CRLF) && forall w <- ws :: Trimmed(w) && ' ' !in w
    ensures ParsedInfo(Join(ws, " ") + end) == ParseInfo(ws[0], ws[1], Join(ws[2..], " "))
            <==> !(|ws| >= 4 && ws[|ws| - 1] == "" && end == "")
  {
    hide SplitAll, Join, Trim, Trimmed, ParsedInfo, Split, Words;
    var line := Join(ws, " ") + end;
    PrintedHasSpace(ws, end);
    EmptyJoin();
    if ws[|ws| - 1] + end == "" {
      LostWords(ws);
      LastLost(ws);
    } else {
      KeptWords(ws, end);
    }
    ReadWords(line);
  }

  /** The words that the parser reads of a line whose last piece is not empty. */
  lemma KeptWords(ws: seq<string>, end: string)
    requires |ws| >= 2 && (end == "" || end == CRLF) && forall w <- ws :: Trimmed(w) && ' ' !in w
    requires ws[|ws| - 1] + end != ""
    ensures var read := Words(Join(ws, " ") + end);
            |read| == |ws| && Trim(read[0]) == ws[0] && Trim(read[1]) == ws[1] && TrimAll(read[2..]) == ws[2..]
  {
    hide SplitAll, Join, Trim, Trimmed, Split;
    PrintedPieces(ws, end);
    TrimmedPieces(ws, end);
    SplitEndsWith(Join(ws, " ") + end, " ", ws[..|ws| - 1], ws[|ws| - 1] + end);
  }

  /** An empty last piece is not read. */
  lemma LostWords(ws: seq<string>)
    requires |ws| >= 2 && ws[|ws| - 1] == "" && forall w <- ws :: Trimmed(w) && ' ' !in w
    ensures var read := Words(Join(ws, " ") + "");
            && |read| == |ws| - 1 && Trim(read[0]) == ws[0] && (|ws| > 2 ==> Trim(read[1]) == ws[1])
            && (|ws| > 3 ==> TrimAll(read[2..]) == ws[2..][..|ws| - 3])
  {
    hide SplitAll, Join, Trim, Trimmed, Split;
    PrintedPieces(ws, "");
    TrimmedPieces(ws, "");
    SplitEndsWith(Join(ws, " ") + "", " ", ws[..|ws| - 1], ws[|ws| - 1] + "");
  }

  lemma ReadWords(line: string)
    requires ' ' in line && |Words(line)| >= 1
    ensures ParsedInfo(line) == ParseInfo(Trim(Words(line)[0]), if |Words(line)| > 1 then Trim(Words(line)[1]) else "",
                                          if |Words(line)| > 2 then Join(TrimAll(Words(line)[2..]), " ") else "")
  {
    hide Words, Trim, Join;
  }

  lemma PrintedHasSpace(ws: seq<string>, end: string)
    requires |ws| >= 2
    ensures ' ' in Join(ws, " ") + end
  {
    hide Join;
    JoinCons(ws[0], ws[1..], " ");
    assert [ws[0]] + ws[1..] == ws;
    assert (Join(ws, " ") + end)[|ws[0]|] == ' ';
  }

  /** Losing an empty last word loses the space before it, if there is one. */
  lemma LastLost(ws: seq<string>)
    requires |ws| >= 2 && ws[|ws| - 1] == ""
    ensures |ws| <= 3 ==> Join(ws[2..], " ") == ""
    ensures |ws| > 3 ==> Join(ws[2..], " ") == Join(ws[2..][..|ws| - 3], " ") + " "
  {
    if |ws| > 3 {
      var init := ws[2..][..|ws| - 3];
      assert ws[2..] == init + [""];
      JoinSnoc(init, "", " ");
    }
  }

  // ---------------------------------------------------------------- the MODE line

  lemma CommandHasNoSpace(word: string)
    requires Upper(word) == "MODE"
    ensures |word| == 4 && forall c <- word :: !IsSpace(c)
  {
    assert forall i :: 0 <= i < 4 ==> UpperChar(word[i]) == "MODE"[i];
  }

  /** A MODE line is its command, a space, a body that does not end in white space, and white space. */
  lemma ModeParts(m: string) returns (word: string, body: string, tail: string)
    requires CommandOf(m) == "MODE" && ' ' in Trim(m)
    ensures m == Trim(m) + tail && AllSpace(tail)
    ensures CutAt(Trim(m), " ") == Parts(word, body) && body != "" && !IsSpace(body[|body| - 1])
  {
    hide CutAt, Find, Trim, CommandOf;
    var trimmed := Trim(m);
    ContainsChar(trimmed, ' ');
    var lo, hi := TrimSplits(m);
    FirstIsLetter(m);
    if lo > 0 {
      StartsWithSpace(m, lo);
    }
    tail := m[hi..];
    word, body := CutAt(trimmed, " ").head, CutAt(trimmed, " ").tail;
    assert trimmed[|trimmed| - 1] == if body == "" then ' ' else body[|body| - 1];
  }

  lemma FirstIsLetter(m: string)
    requires CommandOf(m) == "MODE"
    ensures m != "" && !IsSpace(m[0])
  {
    hide Find;
    match CutAt(m, " ")
    case Whole => CommandHasNoSpace(m);
    case Parts(head, _) => CommandHasNoSpace(head);
  }

  lemma StartsWithSpace(m: string, lo: nat)
    requires 0 < lo <= |m| && AllSpace(m[..lo])
    ensures IsSpace(m[0])
  {
    assert m[0] in m[..lo];
  }

  /** The last piece is empty only after a final delimiter. */
  lemma LastPieceEmpty(s: string, c: char)
    requires s != ""
    ensures var all := SplitAll(s, [c]); all[|all| - 1] == "" ==> s[|s| - 1] == c
  {
    hide SplitAll, Join;
    var all := SplitAll(s, [c]);
    JoinOfSplit(s, [c]);
    var init, last := all[..|all| - 1], all[|all| - 1];
    assert all == init + [last];
    JoinSnoc(init, last, [c]);
    if init != [] && last == "" {
      assert s == Join(init, [c]) + [c];
    }
  }

  lemma LastPiece(s: string, c: char)
    requires s != "" && s[|s| - 1] != c
    ensures Split(s, [c]) == SplitAll(s, [c])
  {
    hide SplitAll;
    LastPieceEmpty(s, c);
  }

  lemma {:induction false} TrimLeftFront(a: string, b: string)
    requires !AllSpace(a)
    ensures TrimLeft(a + b) == TrimLeft(a) + b
  {
    if IsSpace(a[0]) {
      assert (a + b)[1..] == a[1..] + b;
      TrimLeftFront(a[1..], b);
    }
  }

  /** The checker's format is the body without its leading white space. */
  lemma FormatIs(m: string, word: string, body: string)
    requires ' ' in Trim(m) && CutAt(Trim(m), " ") == Parts(word, body) && body != "" && !IsSpace(body[|body| - 1])
    ensures Words(Trim(m)) == [word] + SplitAll(body, " ")
    ensures FormatOf(Trim(m)) == TrimLeft(body)
  {
    hide SplitAll, Join, CutAt, TrimLeft, TrimRight;
    var trimmed := Trim(m);
    SplitParts(trimmed, " ", word, body);
    assert trimmed[|trimmed| - 1] == body[|body| - 1];
    LastPiece(trimmed, ' ');
    JoinOfSplit(body, " ");
    assert ([word] + SplitAll(body, " "))[1..] == SplitAll(body, " ");
    TrimLeftKeepsEnd(body);
  }

  lemma TrimLeftKeepsEnd(body: string)
    requires body != "" && !IsSpace(body[|body| - 1])
    ensures Trim(body) == TrimLeft(body)
  {
    var l := TrimLeft(body);
    TrimEmpty(body);
    assert body[|body| - 1] in body;
    assert l[|l| - 1] == body[|body| - 1];
  }

  /** Two characters at the front that are no delimiter are at the front of the first piece. */
  lemma FirstPiece(s: string, c: char)
    requires |s| >= 2 && s[0] != c && s[1] != c
    ensures |SplitAll(s, [c])[0]| >= 2 && SplitAll(s, [c])[0][..2] == s[..2]
  {
    hide Find, OccursAt;
    match CutAt(s, [c])
    case Whole =>
    case Parts(head, tail) => assert s[|head|] == c;
  }

  /** The parser's reading is the channel, the sign and the letter that the checker looked at. */
  predicate ReadsAs(read: ModeInfo, channel: string, mode: string) {
    && read.channel == Trim(channel)
    && CharAt(mode, 0) == (if read.status then '+' else '-')
    && read.key == CharAt(mode, 1)
  }

  /** Checker and parser read the line alike. */
  predicate Agree(m: string) {
    var cut := CutAt(FormatOf(Trim(m)), " ");
    var read := ParsedMode(m);
    cut.Parts? && read.Some? && ReadsAs(read.value, cut.head, cut.tail)
  }

  /** The pieces of the whole line: the first ones are those of the trimmed line, the next begins like its piece. */
  lemma PiecesOfLine(m: string, word: string, body: string, tail: string)
    requires m == Trim(m) + tail && CutAt(Trim(m), " ") == Parts(word, body) && |SplitAll(body, " ")| >= 2
    ensures |SplitAll(m, " ")| >= 3 && SplitAll(m, " ")[1] == SplitAll(body, " ")[0]
    ensures var second := SplitAll(body, " ")[1];
            |second| >= 2 && second[0] != ' ' && second[1] != ' ' ==>
              |SplitAll(m, " ")[2]| >= 2 && SplitAll(m, " ")[2][..2] == second[..2]
  {
    hide SplitAll, CutAt, Trim;
    var pieces := SplitAll(body, " ");
    SplitParts(Trim(m), " ", word, body);
    var all := [word] + pieces;
    SplitAppend(Trim(m), ' ', tail);
    var last := all[|all| - 1] + tail;
    var second := pieces[1];
    if |pieces| == 2 && |second| >= 2 && second[0] != ' ' && second[1] != ' ' {
      FirstPiece(last, ' ');
      assert last[..2] == second[..2];
    }
  }

  /** The first piece and what the others join to. */
  lemma BodyParts(body: string)
    requires |SplitAll(body, " ")| >= 2
    ensures body == SplitAll(body, " ")[0] + (" " + Join(SplitAll(body, " ")[1..], " "))
    ensures ' ' !in SplitAll(body, " ")[0]
  {
    hide SplitAll, Join;
    var pieces := SplitAll(body, " ");
    JoinOfSplit(body, " ");
    JoinCons(pieces[0], pieces[1..], " ");
    assert pieces == [pieces[0]] + pieces[1..];
    SplitFree(body, " ");
    assert pieces[0] in pieces;
    ContainsChar(pieces[0], ' ');
  }

  lemma CutAfterWord(word: string, rest: string)
    requires ' ' !in word
    ensures CutAt(word + (" " + rest), " ") == Parts(word, rest)
  {
    hide CutAt;
    ContainsChar(word, ' ');
    CharUnbordered(' ');
    FirstDelimiter(word, " ", rest);
    assert word + " " + rest == word + (" " + rest);
  }

  /** The channel and the mode that the checker sees when the second piece is a word. */
  lemma CheckerSees(body: string)
    requires |SplitAll(body, " ")| >= 2 && !AllSpace(SplitAll(body, " ")[0])
    ensures CutAt(TrimLeft(body), " ") == Parts(TrimLeft(SplitAll(body, " ")[0]), Join(SplitAll(body, " ")[1..], " "))
  {
    hide SplitAll, CutAt, TrimLeft, Join;
    var first, mode := SplitAll(body, " ")[0], Join(SplitAll(body, " ")[1..], " ");
    BodyParts(body);
    TrimLeftFront(first, " " + mode);
    CutAfterWord(TrimLeft(first), mode);
  }

  lemma BlankReads(m: string)
    requires |Words(m)| >= 2 && AllSpace(Words(m)[1])
    ensures ParsedMode(m).Some? ==> ParsedMode(m).value.channel == ""
  {
    hide Split, Trim;
    TrimEmpty(Words(m)[1]);
  }

  /** A piece of white space parses as the empty channel, which the checker never lets through. */
  lemma BlankChannel(m: string)
    requires |Words(m)| >= 2 && AllSpace(Words(m)[1]) && OnlyMode(FormatOf(Trim(m)))
    ensures !Agree(m)
  {
    hide Split, Trim, FormatOf, CutAt, Atoi, ParsedMode;
    BlankReads(m);
    match CutAt(FormatOf(Trim(m)), " ")
    case Whole =>
    case Parts(channel, mode) =>
      TrimEmpty(channel);
      assert channel[0] == '#' && !IsSpace('#');
  }

  /** The third word starts with the sign and the letter, so the parser reads them there. */
  lemma WordsRead(m: string, channel: string, mode: string)
    requires |Words(m)| >= 3 && |Words(m)[2]| >= 2 && |mode| >= 2 && Words(m)[2][..2] == mode[..2]
    requires Trim(Words(m)[1]) == Trim(channel) && mode[0] in {'+', '-'}
    ensures ParsedMode(m).Some? && ReadsAs(ParsedMode(m).value, channel, mode) && ParsedMode(m).value.key == mode[1]
  {
    hide Words, Trim;
    var third := Words(m)[2];
    assert third[..2][0] == third[0] && third[..2][1] == third[1];
    assert mode[..2][0] == mode[0] && mode[..2][1] == mode[1];
  }

  lemma ThirdWord(m: string)
    requires |SplitAll(m, " ")| >= 3 && SplitAll(m, " ")[2] != ""
    ensures |Words(m)| >= 3 && Words(m)[1] == SplitAll(m, " ")[1] && Words(m)[2] == SplitAll(m, " ")[2]
  {
    hide SplitAll;
  }

  const LETTERS: set<char> := {'o', 'b', 'l', 'i', 'k', 't'}

  /** A mode that the checker accepts starts with a sign and one of six letters. */
  lemma ModeLength(format: string)
    requires OnlyMode(format) && CutAt(format, " ").Parts?
    ensures var mode := CutAt(format, " ").tail;
            |mode| >= 2 && mode[0] in {'+', '-'} && mode[1] in LETTERS
  {
    hide CutAt, Atoi;
  }

  /**
   * For a MODE line of three words or more that the checker accepts, the parser reads the same channel and sign
   * and one of the six letters that are dispatched on, if and only if its second word is not blank.
   */
  lemma ModeAgreement(m: string)
    requires CommandOf(m) == "MODE" && ' ' in Trim(m) && |Words(Trim(m))| >= 3 && OnlyMode(FormatOf(Trim(m)))
    ensures |Words(m)| >= 2
    ensures Agree(m) <==> !AllSpace(Words(m)[1])
    ensures Agree(m) ==> ParsedMode(m).value.key in LETTERS
  {
    hide SplitAll, CutAt, Join, Trim, TrimLeft, FormatOf, OnlyMode, CommandOf, ParsedMode, ReadsAs;
    var word, body, tail := ModeParts(m);
    FormatIs(m, word, body);
    PiecesOfLine(m, word, body, tail);
    var pieces := SplitAll(body, " ");
    if AllSpace(pieces[0]) {
      BlankChannel(m);
    } else {
      CheckerSees(body);
      var channel, mode := TrimLeft(pieces[0]), Join(pieces[1..], " ");
      ModeLength(TrimLeft(body));
      ModeStart(pieces[1..], mode);
      TrimTwice(pieces[0]);
      ThirdWord(m);
      WordsRead(m, channel, mode);
    }
  }

  /** The first piece of a joined text starts like the text. */
  lemma ModeStart(pieces: seq<string>, mode: string)
    requires pieces != [] && mode == Join(pieces, " ") && |mode| >= 2 && mode[0] != ' ' && mode[1] != ' '
    ensures |pieces[0]| >= 2 && pieces[0][..2] == mode[..2]
  {
    if |pieces| > 1 {
      assert mode[|pieces[0]|] == ' ';
    }
  }

  lemma TrimTwice(s: string)
    ensures Trim(TrimLeft(s)) == Trim(s)
  {
  }

  /** A line with two spaces after its command. */
  lemma TwoSpaces(word: string, format: string, m: string)
    requires Upper(word) == "MODE" && Trimmed(format) && format != "" && m == word + " " + (" " + format)
    ensures CutAt(m, " ") == Parts(word, " " + format) && CommandOf(m) == "MODE" && Trim(m) == m && ' ' in m
    ensures m != "" && m[|m| - 1] != ' '
  {
    hide CutAt, Trim;
    CommandHasNoSpace(word);
    ContainsChar(word, ' ');
    CharUnbordered(' ');
    FirstDelimiter(word, " ", " " + format);
    assert m[|m| - 1] == format[|format| - 1] && m[0] == word[0] && m[|word|] == ' ';
    TrimIdentity(m);
  }

  lemma SpaceInFront(format: string)
    requires Trimmed(format)
    ensures SplitAll(" " + format, " ") == [""] + SplitAll(format, " ") && TrimLeft(" " + format) == format
  {
    hide CutAt, SplitAll;
    ContainsChar("", ' ');
    CharUnbordered(' ');
    FirstDelimiter("", " ", format);
    assert "" + " " + format == " " + format;
    SplitParts(" " + format, " ", "", format);
    TrimLeftPadded(" ", format);
  }

  /** Every accepted format is read differently after a second space: the parser takes an empty channel. */
  lemma SecondSpaceDiffers(word: string, format: string, m: string)
    requires Upper(word) == "MODE" && Trimmed(format) && OnlyMode(format) && CutAt(format, " ").Parts?
    requires m == word + " " + (" " + format)
    ensures CommandOf(m) == "MODE" && ' ' in Trim(m) && |Words(Trim(m))| >= 3 && FormatOf(Trim(m)) == format
    ensures |Words(m)| >= 2 && Words(m)[1] == "" && !Agree(m)
  {
    hide SplitAll, CutAt, Agree, FormatOf, OnlyMode, Trim, TrimLeft, CommandOf, Upper;
    TwoSpaces(word, format, m);
    SpaceInFront(format);
    assert (" " + format)[|format|] == format[|format| - 1];
    FormatIs(m, word, " " + format);
    LastPiece(m, ' ');
    ModeAgreement(m);
  }

  // ---------------------------------------------------------------- numbers

  /** Reading the decimal digits of a number in front of a text leaves the number in the accumulator. */
  lemma {:induction false} DigitsRead(n: nat, rest: string, any: bool)
    ensures DigitsValue(DateFormat.Digits(n) + rest, 0, any) == DigitsValue(rest, n, true)
    decreases n
  {
    var last := ['0' + (n % 10) as char];
    assert (last + rest)[1..] == rest;
    if n >= 10 {
      DigitsRead(n / 10, last + rest, any);
      assert DateFormat.Digits(n) + rest == DateFormat.Digits(n / 10) + (last + rest);
    }
  }

  /** The reader of a limit gives back a printed number, up to the largest `int`; so does the check before it. */
  lemma PrintedNumber(n: int, unset: Int32)
    requires n >= 0
    ensures Number(DateFormat.Digits(n)) == Some(n)
    ensures Number("-" + DateFormat.Digits(n)).Some? && Number("-" + DateFormat.Digits(n)).value == -n
    ensures ToInt(DateFormat.Digits(n), unset) == if n < 0x8000_0000 then n else 0x7fff_ffff
    ensures n < 0x8000_0000 ==> Atoi(DateFormat.Digits(n)) == n
  {
    hide DateFormat.Digits, DigitsValue, Clamp;
    var s := DateFormat.Digits(n);
    assert IsDigit(s[0]);
    DigitsRead(n, "", false);
    assert s + "" == s && ("-" + s)[1..] == s;
    NothingMore(n);
    hide Number;
    NumberRead(s, n, unset);
  }

  lemma NumberRead(s: string, n: nat, unset: Int32)
    requires Number(s) == Some(n)
    ensures ToInt(s, unset) == if n < 0x8000_0000 then n else 0x7fff_ffff
    ensures n < 0x8000_0000 ==> Atoi(s) == n
  {
    hide Number;
  }

  lemma NothingMore(n: nat)
    ensures DigitsValue("", n, true) == Some(n)
  {
  }

  // ---------------------------------------------------------------- the text between two colons

  /** The second piece is what stands between the first delimiter and the next one, or the end. */
  lemma SecondPiece(s: string, c: char) returns (a: nat, b: nat)
    requires |SplitAll(s, [c])| >= 2
    ensures 0 < a <= b <= |s| && SplitAll(s, [c])[1] == s[a..b]
    ensures s[a - 1] == c && c !in s[..a - 1] && c !in s[a..b] && (b == |s| || s[b] == c)
  {
    hide CutAt, Find;
    var head, tail := CutAt(s, [c]).head, CutAt(s, [c]).tail;
    HeadFree(s, [c]);
    ContainsChar(head, c);
    a := |head| + 1;
    assert s[..a - 1] == head && s[a..] == tail;
    HeadFree(tail, [c]);
    if CutAt(tail, [c]).Whole? {
      b := |s|;
      ContainsChar(tail, c);
    } else {
      b := a + |CutAt(tail, [c]).head|;
      ContainsChar(CutAt(tail, [c]).head, c);
      assert s[a..b] == CutAt(tail, [c]).head && s[b] == tail[b - a];
    }
  }
}
