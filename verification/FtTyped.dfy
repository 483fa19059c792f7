/** Lines of 42-Ft_irc as a client types them: from the text that is received to what every other client gets. */
module FtTyped {
  import opened Text
  import opened Tokenizer
  import opened FtParser
  import opened FtSyntax
  import opened FtState
  import opened FtSteps
  import opened FtTalk
  import opened FtLetters
  import opened FtGate
  import opened FtCommands

  /** Words that contain no line feed make a single line. */
  lemma TypedIsSingle(ws: seq<string>, end: string)
    requires ws != [] && Printed(ws) && (end == "" || end == CRLF) && forall w <- ws :: '\n' !in w
    ensures LinesOf(Join(ws, " ") + end) == [Join(ws, " ") + end]
  {
    hide Join, SplitAll, CutAt, Trimmed;
    var text := Join(ws, " ");
    JoinedHasNone(ws, '\n');
    assert ws[0] in ws;
    JoinFront(ws);
    NoFeedNoEnd(text);
    SplitWhole(text, CRLF);
    if end == CRLF {
      DelimitersInUse();
      FirstDelimiter(text, CRLF, "");
      assert text + CRLF + "" == text + CRLF;
      SplitParts(text + CRLF, CRLF, text, "");
      SplitEmpty(CRLF);
    } else {
      assert text + end == text;
    }
  }

  lemma {:induction false} JoinedHasNone(ws: seq<string>, c: char)
    requires c != ' ' && forall w <- ws :: c !in w
    ensures c !in Join(ws, " ")
  {
    if ws != [] {
      assert ws[0] in ws;
      JoinedHasNone(ws[1..], c);
    }
  }

  lemma NoFeedNoEnd(s: string)
    requires '\n' !in s
    ensures !Contains(s, CRLF)
  {
    forall i ensures !OccursAt(CRLF, s, i) {
      if 0 <= i && i + 2 <= |s| {
        assert s[i..i + 2][1] == s[i + 1];
      }
    }
  }

  /** What the handlers read of a typed line: its command, its second word and the others. */
  lemma TypedReads(ws: seq<string>, end: string)
    requires |ws| >= 2 && Printed(ws) && (end == "" || end == CRLF)
    ensures var m := Join(ws, " ") + end;
            CommandOf(m) == Upper(ws[0]) && Arg(m) == ws[1] && Rest(m) == Join(ws[2..], " ")
  {
    hide Join, CommandOf, Arg, Rest, Trim, Trimmed, ParsedInfo, Upper;
    CheckerReads(ws, end);
    assert ws[|ws| - 1] in ws;
    ParseRecovers(ws, end);
    ReadsArgs(Join(ws, " ") + end);
  }

  /** The third word and the text of a typed MODE line. */
  lemma TypedModeReads(ws: seq<string>, end: string)
    requires |ws| >= 3 && Printed(ws) && |ws[2]| >= 2 && (end == "" || end == CRLF)
    ensures var words := Words(Join(ws, " ") + end);
            && |words| == |ws| && Trim(words[1]) == ws[1] && |words[2]| >= 2 && words[2][..2] == ws[2][..2]
            && Operand(words) == if |ws| == 3 then "" else if |ws| == 5 then ws[3] + ws[4] else ws[3]
  {
    hide Join, SplitAll, Trim, Trimmed;
    var n := |ws|;
    assert forall k :: 0 <= k < n ==> ws[k] in ws;
    var words := ws[..n - 1] + [ws[n - 1] + end];
    PrintedPieces(ws, end);
    SplitEndsWith(Join(ws, " ") + end, " ", ws[..n - 1], ws[n - 1] + end);
    TrimmedPieces(ws, end);
    assert words[2] == if n == 3 then ws[2] + end else ws[2];
    assert forall k :: 0 <= k < n ==> Trim(words[k]) == ws[k];
  }

  /** So a typed +o of an operator that names a member makes it an operator. */
  lemma TypedGrant<Id>(w: World<Id>, ws: seq<string>, end: string, fd: int, s: Id, i: nat, c: Id)
    requires |ws| == 4 && Printed(ws) && (end == "" || end == CRLF) && forall x <- ws :: '\n' !in x
    requires Upper(ws[0]) == "MODE" && CharAt(ws[1], 0) == '#' && ws[2] == "+o"
    requires ByFd(w.info, w.live, fd) == Some(s) && Of(w.info, s).login
    requires ByName(w.channels, ws[1]) == Some(i) && s in w.channels[i].operators
    requires ByNick(w.info, w.channels[i].clients, ws[3]) == Some(c) && c !in w.channels[i].operators
    ensures var ch := w.channels[i];
            RunLines(w, LinesOf(Join(ws, " ") + end), fd) ==
            Some(w.(channels := w.channels[i := ch.(operators := ch.operators + [c])]))
  {
    hide Join, Trim, Trimmed, Words, CheckLine, LineStep, ByFd, ByName, ByNick, Upper, Operand, LinesOf;
    var m := Join(ws, " ") + end;
    TypedIsSingle(ws, end);
    GateIs(w, ws, end, fd);
    TypedModeReads(ws, end);
    assert Words(m)[2][..2][0] == Words(m)[2][0] && Words(m)[2][..2][1] == Words(m)[2][1];
    assert Ordered(w, m, fd, i, true, 'o', ws[3]);
    OperatorGranted(w, m, fd, i, true, ws[3]);
  }

  // ---------------------------------------------------------------- messages

  /** The words of a typed message, without a colon in front. */
  lemma TypedSaid(ws: seq<string>, end: string)
    requires |ws| >= 3 && Printed(ws) && (end == "" || end == CRLF)
    ensures var m, said := Join(ws, " ") + end, [StripColon(ws[2])] + ws[3..];
            && |Words(m)| >= 3 && Words(m)[1] == ws[1]
            && (Said(m) == Join(said, " ") <==> Trimmed(StripColon(ws[2])))
  {
    hide Join, Split, Trim, Trimmed, TrimAll, StripColon;
    assert forall k :: 0 <= k < |ws| ==> ws[k] in ws;
    assert [ws[0], ws[1]] + ws[2..] == ws && ws[2..][1..] == ws[3..];
    PrintedWords(ws[0], ws[1], ws[2..], end);
    TalkAsTyped(ws[0], ws[1], ws[2..], end);
    assert Words(Join(ws, " ") + end)[2..][1..] == Words(Join(ws, " ") + end)[3..];
    SaidTrimmed(ws);
  }

  lemma SaidTrimmed(ws: seq<string>)
    requires |ws| >= 3 && Printed(ws)
    ensures (forall x <- Spoken(ws[2..]) :: Trimmed(x)) <==> Trimmed(StripColon(ws[2]))
  {
    hide Trimmed, StripColon;
    var said := Spoken(ws[2..]);
    assert said[0] == StripColon(ws[2]);
    forall x | x in said ensures x == StripColon(ws[2]) || x in ws {
    }
  }

  /** The gate lets a message of a client that is logged in through. */
  lemma TalkPasses<Id>(w: World<Id>, ws: seq<string>, end: string, fd: int)
    requires |ws| >= 3 && Printed(ws) && (end == "" || end == CRLF) && Upper(ws[0]) in {"PRIVMSG", "NOTICE"}
    requires ByFd(w.info, w.live, fd).Some? && Of(w.info, ByFd(w.info, w.live, fd).value).login
    ensures CheckLine(w, Join(ws, " ") + end, fd) == Run(Upper(ws[0]))
  {
    hide Join, Printed, CheckLine, ByFd, Upper;
    GateIs(w, ws, end, fd);
  }

  /** A text whose only line is typed sends what its line sends. */
  lemma TypedSends<Id>(w: World<Id>, ws: seq<string>, end: string, fd: int)
    requires |ws| >= 3 && Printed(ws) && (end == "" || end == CRLF) && forall x <- ws :: '\n' !in x
    requires Upper(ws[0]) in {"PRIVMSG", "NOTICE"}
    requires ByFd(w.info, w.live, fd).Some? && Of(w.info, ByFd(w.info, w.live, fd).value).login
    ensures var m := Join(ws, " ") + end;
            && RunLetters(w, LinesOf(m), fd) == LettersOf(w, m, fd)
            && CheckLine(w, m, fd) == Run(Upper(ws[0])) && CommandOf(m) == Upper(ws[0])
  {
    hide *;
    TypedIsSingle(ws, end);
    LettersOfOne(w, Join(ws, " ") + end, fd);
    TalkPasses(w, ws, end, fd);
    CheckerReads(ws, end);
  }

  /**
   * A typed PRIVMSG sends its words as they were typed, but for one colon in front, once to the client with the nick,
   * or else to every other descriptor once for each entry it has in the channel; and it sends nothing else.
   */
  lemma TypedPrivMsg<Id>(w: World<Id>, ws: seq<string>, end: string, fd: int, c: Id, to: int, text: string)
    requires |ws| >= 3 && Printed(ws) && (end == "" || end == CRLF) && forall x <- ws :: '\n' !in x
    requires Upper(ws[0]) == "PRIVMSG" && Trimmed(StripColon(ws[2]))
    requires ByFd(w.info, w.live, fd) == Some(c) && Of(w.info, c).login
    ensures var said := Join([StripColon(ws[2])] + ws[3..], " ");
            multiset(RunLetters(w, LinesOf(Join(ws, " ") + end), fd))[(to, text)] ==
            if text != ":" + Of(w.info, c).nick + " PRIVMSG " + ws[1] + " :" + said + "\r\n" then 0
            else
              match ByNick(w.info, w.live, ws[1])
              case Some(d) => (if Of(w.info, d).fd == to then 1 else 0)
              case None =>
                match ByName(w.channels, ws[1])
                case None => 0
                case Some(i) => if to == fd then 0 else EntriesOf(w.info, w.channels[i].clients, to)
  {
    hide Join, Trimmed, Words, CheckLine, ByFd, ByName, ByNick, Upper, LinesOf, RunLetters, LettersOf, CommandOf, Said;
    hide StripColon, EntriesOf;
    TypedSends(w, ws, end, fd);
    TypedSaid(ws, end);
    PrivMsgSends(w, Join(ws, " ") + end, fd, c, to, text);
  }

  /** A typed NOTICE does so with the user name behind the nick, and never to the own descriptor. */
  lemma TypedNotice<Id>(w: World<Id>, ws: seq<string>, end: string, fd: int, c: Id, to: int, text: string)
    requires |ws| >= 3 && Printed(ws) && (end == "" || end == CRLF) && forall x <- ws :: '\n' !in x
    requires Upper(ws[0]) == "NOTICE" && Trimmed(StripColon(ws[2]))
    requires ByFd(w.info, w.live, fd) == Some(c) && Of(w.info, c).login
    ensures var said, me := Join([StripColon(ws[2])] + ws[3..], " "), Of(w.info, c);
            multiset(RunLetters(w, LinesOf(Join(ws, " ") + end), fd))[(to, text)] ==
            if text != ":" + me.nick + "!" + me.user + "@0" + " NOTICE " + ws[1] + " :" + said + "\r\n" then 0
            else if to == fd then 0
            else
              match ByNick(w.info, w.live, ws[1])
              case Some(d) => (if Of(w.info, d).fd == to then 1 else 0)
              case None =>
                match ByName(w.channels, ws[1])
                case None => 0
                case Some(i) => EntriesOf(w.info, w.channels[i].clients, to)
  {
    hide Join, Trimmed, Words, CheckLine, ByFd, ByName, ByNick, Upper, LinesOf, RunLetters, LettersOf, CommandOf, Said;
    hide StripColon, EntriesOf;
    TypedSends(w, ws, end, fd);
    TypedSaid(ws, end);
    NoticeSends(w, Join(ws, " ") + end, fd, c, to, text);
  }
}
