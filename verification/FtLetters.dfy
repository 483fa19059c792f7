/** What PRIVMSG and NOTICE of 42-Ft_irc put on the wire: letters, which are pairs of a descriptor and a text. */
module FtLetters {
  import opened Text
  import opened Tokenizer
  import opened FtParser
  import opened FtSyntax
  import opened FtState
  import opened FtSteps
  import opened FtTalk

  /** The same text to each descriptor, in order. */
  function Mail(to: seq<int>, text: string): (letters: seq<(int, string)>)
    ensures |letters| == |to| && forall i :: 0 <= i < |to| ==> letters[i] == (to[i], text)
  {
    seq(|to|, i requires 0 <= i < |to| => (to[i], text))
  }

  /** The letters of the handler of a command. */
  function LettersBy<Id(==)>(w: World<Id>, command: string, line: string, fd: int): seq<(int, string)> {
    match (ByFd(w.info, w.live, fd), ParsedTalk(line))
    case (Some(c), Some(talk)) =>
      if command == "PRIVMSG" then Mail(Receivers(w, talk.target, fd, false), Letter(w, talk, c, false))
      else if command == "NOTICE" then Mail(Receivers(w, talk.target, fd, true), Letter(w, talk, c, true))
      else []
    case _ => []
  }

  /** The letters of one line. */
  function LettersOf<Id(==)>(w: World<Id>, line: string, fd: int): seq<(int, string)> {
    match CheckLine(w, line, fd)
    case Run(command) => LettersBy(w, command, line, fd)
    case _ => []
  }

  /** The letters of several lines, each in the state that the lines before it left. */
  function RunLetters<Id(==)>(w: World<Id>, lines: seq<string>, fd: int): seq<(int, string)>
    decreases |lines|
  {
    if lines == [] then []
    else
      LettersOf(w, lines[0], fd) +
      match LineStep(w, lines[0], fd)
      case None => []
      case Some(w') => RunLetters(w', lines[1..], fd)
  }

  /** Each handler's letters, as its method gives them back. */
  lemma LettersByCommand<Id>(w: World<Id>, command: string, line: string, fd: int)
    ensures command !in {"PRIVMSG", "NOTICE"} ==> LettersBy(w, command, line, fd) == []
    ensures TalkStep(w, line, fd).Some? ==>
              && ParsedTalk(line).Some? && ByFd(w.info, w.live, fd).Some?
              && var talk, c := ParsedTalk(line).value, ByFd(w.info, w.live, fd).value;
              && LettersBy(w, "PRIVMSG", line, fd)
                 == Mail(Receivers(w, talk.target, fd, false), Letter(w, talk, c, false))
              && LettersBy(w, "NOTICE", line, fd)
                 == Mail(Receivers(w, talk.target, fd, true), Letter(w, talk, c, true))
  {
    hide ByFd, Receivers, Letter;
  }

  // ---------------------------------------------------------------- the loop over the lines

  lemma LettersOfOne<Id>(w: World<Id>, line: string, fd: int)
    ensures RunLetters(w, [line], fd) == LettersOf(w, line, fd)
  {
    hide LettersOf, LineStep;
    assert [line][1..] == [];
  }

  lemma LettersOfNone<Id>(w: World<Id>, words: seq<string>, fd: int, sent: seq<(int, string)>)
    requires words == [] || words[0] == ""
    ensures sent + RunLetters(w, UntilEmpty(words), fd) == sent
  {
  }

  lemma LettersOfNext<Id>(w: World<Id>, words: seq<string>, fd: int, sent: seq<(int, string)>)
    requires words != [] && words[0] != "" && LineStep(w, words[0], fd).Some?
    ensures sent + RunLetters(w, UntilEmpty(words), fd)
         == sent + LettersOf(w, words[0], fd)
            + RunLetters(LineStep(w, words[0], fd).value, UntilEmpty(words[1..]), fd)
  {
    hide LettersOf, LineStep;
    assert ([words[0]] + UntilEmpty(words[1..]))[1..] == UntilEmpty(words[1..]);
  }

  /** The letters of two texts in a row go out in that order, those of the second from the state after the first. */
  lemma {:induction false} LettersInOrder<Id>(w: World<Id>, first: seq<string>, second: seq<string>, fd: int)
    requires RunLines(w, first, fd).Some?
    ensures RunLetters(w, first + second, fd)
         == RunLetters(w, first, fd) + RunLetters(RunLines(w, first, fd).value, second, fd)
    decreases |first|
  {
    hide LettersOf, LineStep;
    if first == [] {
      assert first + second == second;
    } else {
      assert (first + second)[1..] == first[1..] + second;
      LettersInOrder(LineStep(w, first[0], fd).value, first[1..], second, fd);
    }
  }

  // ---------------------------------------------------------------- what the letters are

  lemma MailCounts(to: seq<int>, text: string, fd: int, other: string)
    ensures multiset(Mail(to, text))[(fd, other)] == if other == text then multiset(to)[fd] else 0
    decreases |to|
  {
    if to == [] {
      assert Mail(to, text) == [];
    } else {
      MailCounts(to[1..], text, fd, other);
      assert Mail(to, text) == [(to[0], text)] + Mail(to[1..], text);
      assert to == [to[0]] + to[1..];
    }
  }

  /** The words of the message, from the third word of the line on, without a colon in front. */
  function Said(line: string): string
    requires |Words(line)| >= 3
  {
    Join(TrimAll([StripColon(Words(line)[2])] + Words(line)[3..]), " ")
  }

  /**
   * A PRIVMSG sends `:nick PRIVMSG target :text` and nothing else: once to the client that has the target for its
   * nick, or else to every other descriptor once for each entry it has in the channel of that name.
   */
  lemma PrivMsgSends<Id>(w: World<Id>, line: string, fd: int, c: Id, to: int, text: string)
    requires CheckLine(w, line, fd).Run? && CommandOf(line) == "PRIVMSG"
    requires ByFd(w.info, w.live, fd) == Some(c) && |Words(line)| >= 3
    ensures var target := Words(line)[1];
            multiset(LettersOf(w, line, fd))[(to, text)] ==
            if text != ":" + Of(w.info, c).nick + " PRIVMSG " + target + " :" + Said(line) + "\r\n" then 0
            else
              match ByNick(w.info, w.live, target)
              case Some(d) => (if Of(w.info, d).fd == to then 1 else 0)
              case None =>
                match ByName(w.channels, target)
                case None => 0
                case Some(i) => if to == fd then 0 else EntriesOf(w.info, w.channels[i].clients, to)
  {
    hide ByNick, ByName, ByFd, Words, Join, TrimAll, CommandOf, Trim, FormatOf, Accepts, EntriesOf, Receivers;
    var talk := ParsedTalk(line).value;
    assert Words(line)[2..][1..] == Words(line)[3..];
    TalkReaches(w, talk.target, fd, false, to);
    MailCounts(Receivers(w, talk.target, fd, false), Letter(w, talk, c, false), to, text);
  }

  /** A NOTICE sends `:nick!user@0 NOTICE target :text`, and never to its own descriptor. */
  lemma NoticeSends<Id>(w: World<Id>, line: string, fd: int, c: Id, to: int, text: string)
    requires CheckLine(w, line, fd).Run? && CommandOf(line) == "NOTICE"
    requires ByFd(w.info, w.live, fd) == Some(c) && |Words(line)| >= 3
    ensures var target, me := Words(line)[1], Of(w.info, c);
            multiset(LettersOf(w, line, fd))[(to, text)] ==
            if text != ":" + me.nick + "!" + me.user + "@0" + " NOTICE " + target + " :" + Said(line) + "\r\n" then 0
            else if to == fd then 0
            else
              match ByNick(w.info, w.live, target)
              case Some(d) => (if Of(w.info, d).fd == to then 1 else 0)
              case None =>
                match ByName(w.channels, target)
                case None => 0
                case Some(i) => EntriesOf(w.info, w.channels[i].clients, to)
  {
    hide ByNick, ByName, ByFd, Words, Join, TrimAll, CommandOf, Trim, FormatOf, Accepts, EntriesOf, Receivers;
    var talk := ParsedTalk(line).value;
    assert Words(line)[2..][1..] == Words(line)[3..];
    TalkReaches(w, talk.target, fd, true, to);
    MailCounts(Receivers(w, talk.target, fd, true), Letter(w, talk, c, true), to, text);
  }

  /** No other line sends a letter. */
  lemma OthersSendNone<Id>(w: World<Id>, line: string, fd: int)
    requires !CheckLine(w, line, fd).Run? || CommandOf(line) !in {"PRIVMSG", "NOTICE"}
    ensures LettersOf(w, line, fd) == []
  {
    hide ByFd, CommandOf, Trim, FormatOf, Accepts, ParsedTalk;
  }
}
