/** Which printed lines of 42-Ft_irc reach a handler, by their words. */
module FtGate {
  import opened Text
  import opened Tokenizer
  import opened FtParser
  import opened FtSyntax
  import opened FtState
  import opened FtSteps
  import FtTalk

  /** The form that the words after the command must have. */
  predicate Grammar(command: string, args: seq<string>)
    requires args != []
  {
    var channel := CharAt(args[0], 0) == '#';
    match command
    case "WHO" => |args| == 1 && channel
    case "NICK" => |args| == 1 && !channel
    case "WHOIS" => |args| == 1
    case "JOIN" => channel
    case "INVITE" => |args| == 2 && !channel && CharAt(args[1], 0) == '#'
    case "TOPIC" => |args| >= 2 && channel
    case "KICK" => |args| >= 2 && channel
    case "PART" => |args| >= 2 && channel
    case "MODE" => channel && (|args| == 1 || ModeGrammar(args))
    case _ => true
  }

  /** A sign, a letter, and with `l` a number exactly behind the plus sign. */
  predicate ModeGrammar(args: seq<string>)
    requires |args| >= 2
  {
    && |args[1]| >= 2 && args[1][0] in {'+', '-'} && args[1][1] in {'o', 'i', 'b', 'k', 't', 'l'}
    && (args[1][1] == 'l' ==> if args[1][0] == '+' then LimitGiven(args) else |args| == 2 && |args[1]| == 2)
  }

  /** The text behind `+l` starts with a number that is not zero. */
  predicate LimitGiven(args: seq<string>)
    requires |args| >= 2
  {
    var mode := Join(args[1..], " ");
    |mode| > 2 && Atoi(mode[2..]) != 0
  }

  // ---------------------------------------------------------------- printed lines as the checker cuts them

  lemma JoinFront(ws: seq<string>)
    requires ws != [] && ws[0] != ""
    ensures Join(ws, " ") != "" && Join(ws, " ")[0] == ws[0][0]
    ensures if |ws| == 1 then Join(ws, " ") == ws[0] else Join(ws, " ") == ws[0] + (" " + Join(ws[1..], " "))
  {
    if |ws| > 1 {
      assert ws[0] + " " + Join(ws[1..], " ") == ws[0] + (" " + Join(ws[1..], " "));
    }
  }

  lemma {:induction false} JoinBack(ws: seq<string>)
    requires ws != [] && ws[|ws| - 1] != ""
    ensures Join(ws, " ") != "" && Join(ws, " ")[|Join(ws, " ")| - 1] == ws[|ws| - 1][|ws[|ws| - 1]| - 1]
  {
    hide Join;
    var init, last := ws[..|ws| - 1], ws[|ws| - 1];
    JoinSnoc(init, last, " ");
    assert ws == init + [last];
  }

  lemma JoinTrimmed(ws: seq<string>)
    requires ws != [] && Printed(ws)
    ensures Trimmed(Join(ws, " ")) && Join(ws, " ") != ""
  {
    hide Join;
    assert ws[0] in ws && ws[|ws| - 1] in ws;
    JoinFront(ws);
    JoinBack(ws);
  }

  /** Printed words are cut at the first space, if there are two or more. */
  lemma CutPrinted(ws: seq<string>, end: string)
    requires ws != [] && Printed(ws) && ' ' !in end
    ensures CutAt(Join(ws, " ") + end, " ")
         == if |ws| == 1 then Whole else Parts(ws[0], Join(ws[1..], " ") + end)
  {
    hide *;
    assert ws[0] in ws;
    WordOk(ws, ws[0]);
    JoinFront(ws);
    if |ws| == 1 {
      NoCut(Join(ws, " ") + end);
    } else {
      CutAfterWord(ws[0], Join(ws[1..], " ") + end);
      Grouped(ws[0], Join(ws[1..], " "), end);
    }
  }

  lemma WordOk(ws: seq<string>, w: string)
    requires Printed(ws) && w in ws
    ensures w != "" && Trimmed(w) && ' ' !in w
  {
  }

  lemma NoCut(s: string)
    requires ' ' !in s
    ensures CutAt(s, " ") == Whole
  {
    hide CutAt, Find;
    ContainsChar(s, ' ');
  }

  lemma Grouped(a: string, b: string, c: string)
    ensures a + (" " + b) + c == a + " " + (b + c)
  {
  }

  /** What the checker makes of a printed line. */
  lemma CheckerReads(ws: seq<string>, end: string)
    requires |ws| >= 2 && Printed(ws) && (end == "" || end == CRLF)
    ensures var m := Join(ws, " ") + end;
            && CommandOf(m) == Upper(ws[0]) && Trim(m) == Join(ws, " ") && ' ' in Trim(m)
            && Words(Trim(m)) == ws && FormatOf(Trim(m)) == Join(ws[1..], " ")
  {
    hide *;
    var text := Join(ws, " ");
    EndHasNoSpace(end);
    CutPrinted(ws, end);
    CommandIs(text + end, ws[0], Join(ws[1..], " ") + end);
    JoinTrimmed(ws);
    FtTalk.TrimEnd(text, end);
    TrimIdentity(text);
    WordsPrinted(ws);
    RestPrinted(ws);
    FormatIs(text, ws);
    PrintedHasSpace(ws, "");
    assert text + "" == text;
  }

  lemma EndHasNoSpace(end: string)
    requires end == "" || end == CRLF
    ensures ' ' !in end
  {
  }

  lemma CommandIs(m: string, head: string, tail: string)
    requires CutAt(m, " ") == Parts(head, tail)
    ensures CommandOf(m) == Upper(head)
  {
    hide CutAt, Upper;
  }

  lemma RestPrinted(ws: seq<string>)
    requires |ws| >= 2 && Printed(ws)
    ensures Printed(ws[1..])
  {
    hide Trimmed;
    forall w | w in ws[1..] ensures w in ws {
    }
  }

  lemma WordsPrinted(ws: seq<string>)
    requires ws != [] && Printed(ws)
    ensures Words(Join(ws, " ")) == ws
  {
    hide Join, SplitAll, Split, Trimmed;
    var init, last := ws[..|ws| - 1], ws[|ws| - 1];
    assert last in ws;
    PrintedPieces(ws, "");
    assert Join(ws, " ") + "" == Join(ws, " ") && last + "" == last && init + [last] == ws;
    SplitEndsWith(Join(ws, " "), " ", init, last);
  }

  lemma FormatIs(trimmed: string, ws: seq<string>)
    requires |ws| >= 2 && Words(trimmed) == ws && Printed(ws[1..])
    ensures FormatOf(trimmed) == Join(ws[1..], " ")
  {
    hide Join, Trim, Words, Trimmed, Printed;
    JoinTrimmed(ws[1..]);
    TrimIdentity(Join(ws[1..], " "));
  }

  lemma OneWord(ws: seq<string>, end: string)
    requires |ws| == 1 && Printed(ws) && (end == "" || end == CRLF)
    ensures ' ' !in Trim(Join(ws, " ") + end)
  {
    hide Trim, Trimmed;
    assert ws[0] in ws && Join(ws, " ") == ws[0];
    FtTalk.TrimEnd(ws[0], end);
    TrimIdentity(ws[0]);
  }

  lemma SpaceIff(args: seq<string>)
    requires args != [] && Printed(args)
    ensures ' ' in Join(args, " ") <==> |args| >= 2
  {
    hide Join, Trimmed;
    assert args[0] in args;
    if |args| >= 2 {
      PrintedHasSpace(args, "");
      assert Join(args, " ") + "" == Join(args, " ");
    } else {
      JoinFront(args);
    }
  }

  /** Where the checker cuts the text of the arguments. */
  lemma CutArgs(args: seq<string>)
    requires args != [] && Printed(args)
    ensures args[0] != "" && Join(args, " ") != "" && CharAt(Join(args, " "), 0) == args[0][0]
    ensures CutAt(Join(args, " "), " ") == if |args| == 1 then Whole else Parts(args[0], Join(args[1..], " "))
    ensures ' ' in Join(args, " ") <==> |args| >= 2
    ensures |args| >= 2 ==> args[1] != "" && CharAt(Join(args[1..], " "), 0) == args[1][0] && ' ' !in args[0]
    ensures |args| >= 2 ==> (' ' in Join(args[1..], " ") <==> |args| >= 3)
  {
    hide Join, CutAt, Trimmed;
    assert args[0] in args;
    JoinFront(args);
    SpaceIff(args);
    CutPrinted(args, "");
    assert Join(args, " ") + "" == Join(args, " ");
    if |args| >= 2 {
      RestPrinted(args);
      assert args[1] in args && args[1..][0] == args[1];
      JoinFront(args[1..]);
      SpaceIff(args[1..]);
    }
  }

  lemma OnlyModeIs(args: seq<string>)
    requires args != [] && Printed(args)
    ensures OnlyMode(Join(args, " ")) <==> Grammar("MODE", args)
  {
    hide Join, CutAt, Trimmed, Printed, Atoi;
    CutArgs(args);
    if |args| >= 2 {
      assert args[1..][0] == args[1];
      SecondChar(args[1..]);
    }
  }

  /** The checker's test on the text is the form of the words. */
  lemma AcceptsPrinted(command: string, args: seq<string>, trimmed: string)
    requires args != [] && Printed(args) && |Words(trimmed)| >= 2
    ensures Accepts(command, trimmed, Join(args, " ")) <==> Grammar(command, args)
  {
    hide Join, CutAt, Words, Printed, OnlyMode, ModeGrammar;
    OnlyModeIs(args);
    CutArgs(args);
  }

  /** The second character of a joined text is that of its first word, unless that has one character only. */
  lemma SecondChar(ws: seq<string>)
    requires ws != [] && ws[0] != ""
    ensures var c := CharAt(Join(ws, " "), 1);
            if |ws[0]| >= 2 then c == ws[0][1] else c == if |ws| == 1 then '\0' else ' '
    ensures |Join(ws, " ")| == 2 && |ws[0]| >= 2 <==> |ws| == 1 && |ws[0]| == 2
  {
    hide Join;
    JoinFront(ws);
  }

  /**
   * The whole gate for a printed line: a known command in the right form reaches its handler, from a logged-in client
   * unless it serves to register or to leave. Everything else is ignored, or follows a client that is not there.
   */
  lemma GateIs<Id>(w: World<Id>, ws: seq<string>, end: string, fd: int)
    requires ws != [] && Printed(ws) && (end == "" || end == CRLF)
    ensures var command, client := Upper(ws[0]), ByFd(w.info, w.live, fd);
            CheckLine(w, Join(ws, " ") + end, fd) ==
            if |ws| == 1 || command !in {"WHO", "PASS", "USER", "NICK", "INVITE", "QUIT", "PRIVMSG", "TOPIC", "KICK",
                                         "PART", "MODE", "NOTICE", "WHOIS", "JOIN"}
            then (if client.None? then Crash else Ignored)
            else if !Grammar(command, ws[1..]) then Ignored
            else if command in {"QUIT", "USER", "NICK", "PASS"} then Run(command)
            else if client.None? then Crash
            else if Of(w.info, client.value).login then Run(command)
            else Ignored
  {
    hide Join, CommandOf, Trim, FormatOf, Accepts, Grammar, Upper, ByFd, Trimmed, Words;
    if |ws| == 1 {
      OneWord(ws, end);
      return;
    }
    CheckerReads(ws, end);
    AcceptsPrinted(Upper(ws[0]), ws[1..], Join(ws, " "));
  }
}
