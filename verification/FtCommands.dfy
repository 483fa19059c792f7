/**
 * What each command of 42-Ft_irc does to the server, with the fields of the new state written out and the arguments
 * read off the words of the line.
 */
module FtCommands {
  import opened Lists
  import opened Text
  import opened Tokenizer
  import opened FtParser
  import opened FtSyntax
  import opened FtState
  import opened FtChannel
  import opened FtSteps
  import opened FtQuit
  import opened FtEffects
  import opened FtInvariant

  // ---------------------------------------------------------------- the words of a line that runs

  /** The second word. */
  function Arg(line: string): string {
    if |Words(line)| < 2 then "" else Trim(Words(line)[1])
  }

  /** The words from the third on. */
  function Rest(line: string): string {
    if |Words(line)| < 3 then "" else Join(TrimAll(Words(line)[2..]), " ")
  }

  lemma RunIsCommand<Id>(w: World<Id>, line: string, fd: int)
    requires CheckLine(w, line, fd).Run?
    ensures CheckLine(w, line, fd) == Run(CommandOf(line)) && ' ' in Trim(line) && CommandOf(line) in COMMANDS
    ensures CommandOf(line) !in {"QUIT", "USER", "NICK", "PASS"} ==> ByFd(w.info, w.live, fd).Some?
    ensures LineStep(w, line, fd) == Handle(w, CommandOf(line), line, fd)
  {
    hide CommandOf, Trim, FormatOf, Accepts, Handle;
  }

  lemma ReadsArgs(line: string)
    ensures ParsedInfo(line).function_ == Arg(line) && ParsedInfo(line).value == Rest(line)
  {
    hide Trim, Join, SplitAll;
    ContainsChar(line, ' ');
    SplitWhole(line, " ");
    if ' ' in line {
      SpaceGivesWord(line);
      ReadWords(line);
    }
  }

  // ---------------------------------------------------------------- from the command to its handler

  lemma RunHandles<Id>(w: World<Id>, line: string, fd: int)
    requires CheckLine(w, line, fd).Run?
    ensures LineStep(w, line, fd) == Handle(w, CheckLine(w, line, fd).command, line, fd)
  {
    hide CheckLine, Handle;
  }

  lemma RunPass<Id>(w: World<Id>, line: string, fd: int)
    requires CheckLine(w, line, fd) == Run("PASS")
    ensures LineStep(w, line, fd) == PassStep(w, line, fd)
  {
    hide CheckLine, LineStep;
    hide QuitStep, UserStep, NickStep, PassStep, TalkStep, JoinStep, PartStep, WhoOk, ModeStep, KickStep, InviteStep;
    hide TopicStep;
    RunHandles(w, line, fd);
  }

  lemma RunNick<Id>(w: World<Id>, line: string, fd: int)
    requires CheckLine(w, line, fd) == Run("NICK")
    ensures LineStep(w, line, fd) == NickStep(w, line, fd)
  {
    hide CheckLine, LineStep;
    hide QuitStep, UserStep, NickStep, PassStep, TalkStep, JoinStep, PartStep, WhoOk, ModeStep, KickStep, InviteStep;
    hide TopicStep;
    RunHandles(w, line, fd);
  }

  lemma RunUser<Id>(w: World<Id>, line: string, fd: int)
    requires CheckLine(w, line, fd) == Run("USER")
    ensures LineStep(w, line, fd) == UserStep(w, line, fd)
  {
    hide CheckLine, LineStep;
    hide QuitStep, UserStep, NickStep, PassStep, TalkStep, JoinStep, PartStep, WhoOk, ModeStep, KickStep, InviteStep;
    hide TopicStep;
    RunHandles(w, line, fd);
  }

  lemma RunQuit<Id>(w: World<Id>, line: string, fd: int)
    requires CheckLine(w, line, fd) == Run("QUIT")
    ensures LineStep(w, line, fd) == QuitStep(w, line, fd)
  {
    hide CheckLine, LineStep;
    hide QuitStep, UserStep, NickStep, PassStep, TalkStep, JoinStep, PartStep, WhoOk, ModeStep, KickStep, InviteStep;
    hide TopicStep;
    RunHandles(w, line, fd);
  }

  lemma RunJoin<Id>(w: World<Id>, line: string, fd: int)
    requires CheckLine(w, line, fd) == Run("JOIN")
    ensures LineStep(w, line, fd) == JoinStep(w, line, fd)
  {
    hide CheckLine, LineStep;
    hide QuitStep, UserStep, NickStep, PassStep, TalkStep, JoinStep, PartStep, WhoOk, ModeStep, KickStep, InviteStep;
    hide TopicStep;
    RunHandles(w, line, fd);
  }

  lemma RunPart<Id>(w: World<Id>, line: string, fd: int)
    requires CheckLine(w, line, fd) == Run("PART")
    ensures LineStep(w, line, fd) == PartStep(w, line, fd)
  {
    hide CheckLine, LineStep;
    hide QuitStep, UserStep, NickStep, PassStep, TalkStep, JoinStep, PartStep, WhoOk, ModeStep, KickStep, InviteStep;
    hide TopicStep;
    RunHandles(w, line, fd);
  }

  lemma RunKick<Id>(w: World<Id>, line: string, fd: int)
    requires CheckLine(w, line, fd) == Run("KICK")
    ensures LineStep(w, line, fd) == KickStep(w, line, fd)
  {
    hide CheckLine, LineStep;
    hide QuitStep, UserStep, NickStep, PassStep, TalkStep, JoinStep, PartStep, WhoOk, ModeStep, KickStep, InviteStep;
    hide TopicStep;
    RunHandles(w, line, fd);
  }

  lemma RunInvite<Id>(w: World<Id>, line: string, fd: int)
    requires CheckLine(w, line, fd) == Run("INVITE")
    ensures LineStep(w, line, fd) == InviteStep(w, line, fd)
  {
    hide CheckLine, LineStep;
    hide QuitStep, UserStep, NickStep, PassStep, TalkStep, JoinStep, PartStep, WhoOk, ModeStep, KickStep, InviteStep;
    hide TopicStep;
    RunHandles(w, line, fd);
  }

  lemma RunTopic<Id>(w: World<Id>, line: string, fd: int)
    requires CheckLine(w, line, fd) == Run("TOPIC")
    ensures LineStep(w, line, fd) == TopicStep(w, line, fd)
  {
    hide CheckLine, LineStep;
    hide QuitStep, UserStep, NickStep, PassStep, TalkStep, JoinStep, PartStep, WhoOk, ModeStep, KickStep, InviteStep;
    hide TopicStep;
    RunHandles(w, line, fd);
  }

  lemma RunMode<Id>(w: World<Id>, line: string, fd: int)
    requires CheckLine(w, line, fd) == Run("MODE")
    ensures LineStep(w, line, fd) == ModeStep(w, line, fd)
  {
    hide CheckLine, LineStep;
    hide QuitStep, UserStep, NickStep, PassStep, TalkStep, JoinStep, PartStep, WhoOk, ModeStep, KickStep, InviteStep;
    hide TopicStep;
    RunHandles(w, line, fd);
  }

  lemma RunWho<Id>(w: World<Id>, line: string, fd: int)
    requires CheckLine(w, line, fd) == Run("WHO")
    ensures LineStep(w, line, fd) == if WhoOk(w, line, fd) then Some(w) else None
  {
    hide CheckLine, LineStep;
    hide QuitStep, UserStep, NickStep, PassStep, TalkStep, JoinStep, PartStep, WhoOk, ModeStep, KickStep, InviteStep;
    hide TopicStep;
    RunHandles(w, line, fd);
  }

  // ---------------------------------------------------------------- the first match

  lemma {:induction false} FirstFd<Id>(info: map<Id, ClientInfo>, s: seq<Id>, i: nat)
    requires i < |s| && forall j :: 0 <= j < i ==> Of(info, s[j]).fd != Of(info, s[i]).fd
    ensures ByFd(info, s, Of(info, s[i]).fd) == Some(s[i])
  {
    if i > 0 {
      FirstFd(info, s[1..], i - 1);
    }
  }

  lemma {:induction false} FirstNick<Id>(info: map<Id, ClientInfo>, s: seq<Id>, i: nat)
    requires i < |s| && forall j :: 0 <= j < i ==> Of(info, s[j]).nick != Of(info, s[i]).nick
    ensures ByNick(info, s, Of(info, s[i]).nick) == Some(s[i])
  {
    if i > 0 {
      FirstNick(info, s[1..], i - 1);
    }
  }

  lemma {:induction false} FirstHost<Id>(info: map<Id, ClientInfo>, s: seq<Id>, i: nat)
    requires i < |s| && forall j :: 0 <= j < i ==> Of(info, s[j]).host != Of(info, s[i]).host
    ensures ByHost(info, s, Of(info, s[i]).host) == Some(s[i])
    ensures WithHost(info, s, Of(info, s[i]).host) != [] && WithHost(info, s, Of(info, s[i]).host)[0] == s[i]
  {
    if i > 0 {
      FirstHost(info, s[1..], i - 1);
    }
  }

  // ---------------------------------------------------------------- registering

  /** A client that connects is not logged in and stands at the end of the list. */
  lemma ConnectAdds<Id>(w: World<Id>, c: Id, fd: int, host: string)
    ensures Step(w, Connect(c, fd, host))
         == Some(w.(info := w.info[c := ClientInfo(fd, host, "*", "*", "*", "*", false, false)], live := w.live + [c]))
  {
    hide LineStep;
  }

  /** A PASS stores its second word. */
  lemma PassStores<Id>(w: World<Id>, line: string, fd: int)
    requires CheckLine(w, line, fd) == Run("PASS")
    ensures LineStep(w, line, fd) ==
            match ByFd(w.info, w.live, fd)
            case None => None
            case Some(c) => Some(w.(info := w.info[c := Of(w.info, c).(password := Arg(line))]))
  {
    hide CheckLine, CommandOf, Arg, Rest, ByFd, ParsedInfo, Trim, LineStep;
    RunPass(w, line, fd);
    ReadsArgs(line);
  }

  /** A nick that a live client has is refused; a free one is taken, and after a refusal it logs in or fails. */
  lemma NickTakes<Id>(w: World<Id>, line: string, fd: int, c: Id)
    requires CheckLine(w, line, fd) == Run("NICK") && ByFd(w.info, w.live, fd) == Some(c)
    ensures var me := Of(w.info, c);
            LineStep(w, line, fd) ==
            if exists d <- w.live :: Of(w.info, d).nick == Arg(line) then
              Some(w.(info := w.info[c := me.(taken := true)]))
            else if !me.taken then Some(w.(info := w.info[c := me.(nick := Arg(line))]))
            else if me.password != w.password then None
            else Some(w.(info := w.info[c := me.(nick := Arg(line), taken := false, login := true)]))
  {
    hide CheckLine, CommandOf, Arg, Rest, ByFd, ByNick, ParsedInfo, Trim, LineStep;
    RunNick(w, line, fd);
    ReadsArgs(line);
  }

  /** With the server's password a USER logs in, unless the nick was refused. */
  lemma UserRegisters<Id>(w: World<Id>, line: string, fd: int, c: Id)
    requires CheckLine(w, line, fd) == Run("USER") && ByFd(w.info, w.live, fd) == Some(c)
    requires |Words(line)| >= 5 && Of(w.info, c).password == w.password
    ensures var me, words := Of(w.info, c), Words(line);
            LineStep(w, line, fd) ==
            Some(w.(info := w.info[c := me.(user := words[1], realName := if words[4] == "" then "" else words[4][1..],
                                            login := me.login || !me.taken)]))
  {
    hide CheckLine, CommandOf, ByFd, Words, ServerRemove, LineStep;
    RunUser(w, line, fd);
  }

  /** With another password it stores the names and takes the client off the server, without a login. */
  lemma UserRemoves<Id>(w: World<Id>, line: string, fd: int, c: Id)
    requires CheckLine(w, line, fd) == Run("USER") && ByFd(w.info, w.live, fd) == Some(c)
    requires |Words(line)| >= 5 && Of(w.info, c).password != w.password
    ensures var me, words := Of(w.info, c), Words(line);
            var named := me.(user := words[1], realName := if words[4] == "" then "" else words[4][1..]);
            LineStep(w, line, fd) == Step(w.(info := w.info[c := named]), Hangup(fd))
  {
    hide CheckLine, CommandOf, ByFd, Words, ServerRemove, LineStep;
    RunUser(w, line, fd);
  }

  /** A USER of fewer than five words, or from nobody, is not survived. */
  lemma UserFails<Id>(w: World<Id>, line: string, fd: int)
    requires CheckLine(w, line, fd) == Run("USER") && (ByFd(w.info, w.live, fd).None? || |Words(line)| < 5)
    ensures LineStep(w, line, fd) == None
  {
    hide CheckLine, CommandOf, ByFd, Words, ServerRemove, LineStep;
    RunUser(w, line, fd);
  }

  // ---------------------------------------------------------------- channels

  /** Nothing on the channel keeps the client out. */
  predicate Welcome<Id(==)>(info: map<Id, ClientInfo>, ch: Chan<Id>, c: Id, key: string) {
    && (ch.password == "" || ch.password == key)
    && (forall b <- ch.bans :: Of(info, b).host != Of(info, c).host)
    && (ch.limit == 0 || |ch.clients| != ch.limit)
    && (ch.inviteOnly ==> exists x <- ch.invites :: Of(info, x).nick == Of(info, c).nick)
  }

  /** A JOIN of an unknown name opens the channel, with the sender as its only member and operator. */
  lemma JoinOpens<Id>(w: World<Id>, line: string, fd: int, c: Id)
    requires CheckLine(w, line, fd) == Run("JOIN") && ByFd(w.info, w.live, fd) == Some(c)
    requires forall i :: 0 <= i < |w.channels| ==> w.channels[i].name != Arg(line)
    ensures LineStep(w, line, fd)
         == Some(w.(channels := w.channels + [Chan(Arg(line), [c], [c], [], [], 0, false, "", "")]))
  {
    hide CheckLine, CommandOf, Arg, Rest, ByFd, ParsedInfo, Trim, LineStep;
    RunJoin(w, line, fd);
    ReadsArgs(line);
    assert [] + [c] == [c];
  }

  /** A JOIN of a known name appends the sender, if nothing keeps it out; the first one in is operator. */
  lemma JoinEnters<Id>(w: World<Id>, line: string, fd: int, c: Id, i: nat)
    requires CheckLine(w, line, fd) == Run("JOIN") && ByFd(w.info, w.live, fd) == Some(c)
    requires i < |w.channels| && ByName(w.channels, Arg(line)) == Some(i)
    ensures var ch := w.channels[i];
            LineStep(w, line, fd) ==
            if !Welcome(w.info, ch, c, Rest(line)) then Some(w)
            else
              var entered := ch.(clients := ch.clients + [c],
                                 operators := if ch.clients == [] then ch.operators + [c] else ch.operators);
              Some(w.(channels := w.channels[i := entered]))
  {
    hide CheckLine, CommandOf, Arg, Rest, ByFd, ByName, ByHost, ByNick, ParsedInfo, Trim, LineStep;
    RunJoin(w, line, fd);
    ReadsArgs(line);
  }

  /** Whoever leaves loses the first entry and the operator's rank. */
  lemma DropIs<Id>(info: map<Id, ClientInfo>, ch: Chan<Id>, c: Id)
    ensures Drop(info, ch, c) ==
            if c !in ch.clients then ch
            else ch.(clients := RemoveFirst(ch.clients, c), operators := RemoveFirst(ch.operators, c))
  {
    hide ByNick, RemoveFirst;
  }

  lemma PartLeaves<Id>(w: World<Id>, line: string, fd: int, c: Id)
    requires CheckLine(w, line, fd) == Run("PART") && ByFd(w.info, w.live, fd) == Some(c)
    ensures LineStep(w, line, fd) ==
            match ByName(w.channels, Arg(line))
            case None => Some(w)
            case Some(i) =>
              var ch := w.channels[i];
              if c !in ch.clients then Some(w)
              else
                var left := ch.(clients := RemoveFirst(ch.clients, c), operators := RemoveFirst(ch.operators, c));
                Some(w.(channels := w.channels[i := left]))
  {
    hide CheckLine, CommandOf, Arg, Rest, ByFd, ByName, ParsedInfo, Trim, Drop, RemoveFirst, LineStep;
    RunPart(w, line, fd);
    ReadsArgs(line);
    match ByName(w.channels, Arg(line))
    case None =>
    case Some(i) =>
      DropIs(w.info, w.channels[i], c);
      SameChannel(w, i);
  }

  lemma SameChannel<Id>(w: World<Id>, i: nat)
    requires i < |w.channels|
    ensures w.(channels := w.channels[i := w.channels[i]]) == w
  {
  }

  /** The descriptor is that of one of the clients. */
  predicate FdAmong<Id(==)>(info: map<Id, ClientInfo>, s: seq<Id>, fd: int) {
    exists c <- s :: Of(info, c).fd == fd
  }

  /**
   * A KICK, whose text is cut at its first colon if there is one: an operator's takes the named member off the
   * channel, that of somebody else does nothing, and an unknown channel is not survived.
   */
  lemma KickRemoves<Id>(w: World<Id>, line: string, fd: int, k: nat)
    requires CheckLine(w, line, fd) == Run("KICK") && k <= |line| && ':' !in line[..k]
    requires k < |line| ==> line[k] == ':' && HasText(line)
    ensures var head := if k == |line| then line else Trim(line[..k]);
            LineStep(w, line, fd) ==
            match ByName(w.channels, Arg(head))
            case None => None
            case Some(i) =>
              var ch := w.channels[i];
              if !FdAmong(w.info, ch.operators, fd) then Some(w)
              else
                match ByNick(w.info, ch.clients, Rest(head))
                case None => Some(w)
                case Some(x) =>
                  var left := ch.(clients := RemoveFirst(ch.clients, x), operators := RemoveFirst(ch.operators, x));
                  Some(w.(channels := w.channels[i := left]))
  {
    hide CheckLine, CommandOf, Arg, Rest, ByFd, ByName, ByNick, ParsedInfo, Trim, Drop, RemoveFirst, LineStep, KickHead;
    RunKick(w, line, fd);
    KickHeadIs(line, k);
    var head := if k == |line| then line else Trim(line[..k]);
    ReadsArgs(head);
    var i := ByName(w.channels, Arg(head));
    if i.Some? && ByNick(w.info, w.channels[i.value].clients, Rest(head)).Some? {
      DropIs(w.info, w.channels[i.value], ByNick(w.info, w.channels[i.value].clients, Rest(head)).value);
    }
  }

  /** The part of a KICK that is parsed. */
  lemma KickHeadIs(line: string, k: nat)
    requires k <= |line| && ':' !in line[..k]
    requires k < |line| ==> line[k] == ':' && HasText(line)
    ensures KickHead(line) == Some(if k == |line| then line else Trim(line[..k]))
  {
    hide Split, Trim, HasText;
    if k == |line| {
      assert line[..k] == line;
    } else {
      TwoPieces(line);
      FirstIsHead(line, k);
    }
  }

  lemma CutFirst(s: string, c: char, k: nat)
    requires k < |s| && s[k] == c && c !in s[..k]
    ensures CutAt(s, [c]) == Parts(s[..k], s[k + 1..])
  {
    hide CutAt, Find;
    ContainsChar(s[..k], c);
    CharUnbordered(c);
    FirstDelimiter(s[..k], [c], s[k + 1..]);
    assert s[..k] + [c] + s[k + 1..] == s;
  }

  lemma FirstIsHead(line: string, k: nat)
    requires k < |line| && line[k] == ':' && ':' !in line[..k] && |Split(line, ":")| >= 2
    ensures Split(line, ":")[0] == line[..k]
  {
    hide CutAt, SplitAll;
    CutFirst(line, ':', k);
    SplitParts(line, ":", line[..k], line[k + 1..]);
  }

  /** A KICK with no colon before its last character, but one there, is not survived. */
  lemma KickFails<Id>(w: World<Id>, line: string, fd: int)
    requires CheckLine(w, line, fd) == Run("KICK") && ':' in line && !HasText(line)
    ensures LineStep(w, line, fd) == None
  {
    hide CheckLine, LineStep, Split, KickFrom, HasText;
    RunKick(w, line, fd);
    TwoPieces(line);
  }

  /** An operator's INVITE puts the live client with the nick on the list; to invite it again is not survived. */
  lemma InviteLists<Id>(w: World<Id>, line: string, fd: int)
    requires CheckLine(w, line, fd) == Run("INVITE")
    ensures LineStep(w, line, fd) ==
            match ByName(w.channels, Rest(line))
            case None => Some(w)
            case Some(i) =>
              var ch := w.channels[i];
              if !FdAmong(w.info, ch.operators, fd) then Some(w)
              else
                match ByNick(w.info, w.live, Arg(line))
                case None => Some(w)
                case Some(x) =>
                  if x in ch.invites then None
                  else Some(w.(channels := w.channels[i := ch.(invites := ch.invites + [x])]))
  {
    hide CheckLine, CommandOf, Arg, Rest, ByFd, ByName, ByNick, ParsedInfo, LineStep;
    RunInvite(w, line, fd);
    ReadsArgs(line);
  }

  /** An operator's TOPIC with a third word sets the text behind the first colon, up to the next one. */
  lemma TopicSets<Id>(w: World<Id>, line: string, fd: int, a: nat, b: nat)
    requires CheckLine(w, line, fd) == Run("TOPIC")
    requires 0 < a <= b <= |line| && a < |line| && line[a - 1] == ':' && ':' !in line[..a - 1]
    requires ':' !in line[a..b] && (b == |line| || line[b] == ':')
    ensures LineStep(w, line, fd) ==
            match ByName(w.channels, Arg(line))
            case None => None
            case Some(i) =>
              var ch := w.channels[i];
              if !FdAmong(w.info, ch.operators, fd) || Rest(line) == "" then Some(w)
              else Some(w.(channels := w.channels[i := ch.(topic := line[a..b])]))
  {
    hide CheckLine, CommandOf, Arg, Rest, ByFd, ByName, ParsedInfo, Split, HasText, LineStep;
    RunTopic(w, line, fd);
    ReadsArgs(line);
    ColonBefore(line, a - 1);
    TwoPieces(line);
    SecondIs(line, a, b);
  }

  lemma ColonBefore(line: string, k: nat)
    requires k + 1 < |line| && line[k] == ':'
    ensures HasText(line)
  {
  }

  /** The second piece is the text between the first colon and the next one. */
  lemma SecondIs(line: string, a: nat, b: nat)
    requires 0 < a <= b <= |line| && line[a - 1] == ':' && ':' !in line[..a - 1] && |Split(line, ":")| >= 2
    requires ':' !in line[a..b] && (b == |line| || line[b] == ':')
    ensures Split(line, ":")[1] == line[a..b]
  {
    hide SplitAll;
    var a', b' := SecondPiece(line, ':');
  }

  /** Without a colon before its last character, such a TOPIC is not survived. */
  lemma TopicFails<Id>(w: World<Id>, line: string, fd: int, i: nat)
    requires CheckLine(w, line, fd) == Run("TOPIC") && ByName(w.channels, Arg(line)) == Some(i)
    requires FdAmong(w.info, w.channels[i].operators, fd) && Rest(line) != "" && !HasText(line)
    ensures LineStep(w, line, fd) == None
  {
    hide CheckLine, CommandOf, Arg, Rest, ByFd, ByName, ParsedInfo, Split, HasText, LineStep;
    RunTopic(w, line, fd);
    ReadsArgs(line);
    TwoPieces(line);
  }

  // ---------------------------------------------------------------- modes

  /** What follows the letter of a MODE line: nothing, one word, or two words run together. */
  function Operand(words: seq<string>): string {
    if |words| <= 3 then "" else if |words| == 5 then Trim(words[3]) + Trim(words[4]) else Trim(words[3])
  }

  /**
   * A MODE line that runs, with a sign and a letter for its third word and `p` behind them; it names channel `i`, and
   * comes from the descriptor of one of its operators.
   */
  predicate Ordered<Id(==)>(w: World<Id>, line: string, fd: int, i: nat, on: bool, letter: char, p: string) {
    var words := Words(line);
    && CheckLine(w, line, fd) == Run("MODE") && |words| >= 3 && |words[2]| >= 2
    && (on <==> words[2][0] == '+') && words[2][1] in {letter, UpperChar(letter)} && p == Operand(words)
    && ByName(w.channels, Trim(words[1])) == Some(i) && FdAmong(w.info, w.channels[i].operators, fd)
  }

  lemma ReadsMode(line: string)
    requires |Words(line)| >= 3 && |Words(line)[2]| >= 2
    ensures var words := Words(line);
            && ' ' in line
            && ParsedMode(line) == Some(ModeInfo(Trim(words[1]), words[2][0] == '+', words[2][1], Operand(words)))
  {
    hide Words, Trim;
    WordsHaveSpace(line);
  }

  lemma OrderedApplies<Id>(w: World<Id>, line: string, fd: int, i: nat, on: bool, letter: char, p: string)
    requires Ordered(w, line, fd, i, on, letter, p) && 'a' <= letter <= 'z'
    ensures var m := ModeInfo(Trim(Words(line)[1]), on, Words(line)[2][1], p);
            i < |w.channels| && LowerChar(m.key) == letter && LineStep(w, line, fd) == ApplyMode(w, i, m)
  {
    hide CheckLine, Words, Trim, Operand, ByName, ByFd, ParsedMode, ApplyMode, LineStep;
    RunMode(w, line, fd);
    ReadsMode(line);
  }

  /** +o appends the member with the nick, -o takes its rank; no such member and +o is not survived. */
  lemma OperatorGranted<Id>(w: World<Id>, line: string, fd: int, i: nat, on: bool, p: string)
    requires Ordered(w, line, fd, i, on, 'o', p)
    ensures var ch := w.channels[i];
            LineStep(w, line, fd) ==
            match ByNick(w.info, ch.clients, p)
            case None => if on then None else Some(w)
            case Some(c) =>
              var ops := if !on then RemoveFirst(ch.operators, c)
                         else if c in ch.operators then ch.operators else ch.operators + [c];
              Some(w.(channels := w.channels[i := ch.(operators := ops)]))
  {
    hide LineStep, Ordered, Operand, Words, ByNick, Trim;
    OrderedApplies(w, line, fd, i, on, 'o', p);
    SameChannel(w, i);
    assert w.channels[i].(operators := w.channels[i].operators) == w.channels[i];
  }

  /** i, k and t set their field. */
  lemma SettingTaken<Id>(w: World<Id>, line: string, fd: int, i: nat, on: bool, letter: char, p: string)
    requires Ordered(w, line, fd, i, on, letter, p) && letter in {'i', 'k', 't'}
    ensures var ch := w.channels[i];
            var changed := if letter == 'i' then ch.(inviteOnly := on)
                        else if letter == 'k' then ch.(password := p) else ch.(topic := p);
            LineStep(w, line, fd) == Some(w.(channels := w.channels[i := changed]))
  {
    hide LineStep, Ordered, Operand, Words, Trim;
    OrderedApplies(w, line, fd, i, on, letter, p);
  }

  /** l sets the limit to the number behind it, or to none. */
  lemma LimitSet<Id>(w: World<Id>, line: string, fd: int, i: nat, on: bool, p: string)
    requires Ordered(w, line, fd, i, on, 'l', p) && w.channels[i].clients != []
    ensures var limit := if on then LimitOf(ToInt(p, w.unset)) else 0;
            LineStep(w, line, fd) == Some(w.(channels := w.channels[i := w.channels[i].(limit := limit)]))
  {
    hide LineStep, Ordered, Operand, Words, Trim, ToInt;
    OrderedApplies(w, line, fd, i, on, 'l', p);
  }

  /** The other MODE lines change nothing, or are not survived. */
  lemma ModeElse<Id>(w: World<Id>, line: string, fd: int)
    requires CheckLine(w, line, fd) == Run("MODE")
    ensures var words := Words(line);
            && (|words| < 3 ==> LineStep(w, line, fd) == Some(w))
            && (|words| >= 3 && words[2] == "" ==> LineStep(w, line, fd) == None)
            && (|words| >= 3 && words[2] != "" ==>
                  match ByName(w.channels, Trim(words[1]))
                  case None => LineStep(w, line, fd) == None
                  case Some(i) => !FdAmong(w.info, w.channels[i].operators, fd) ==> LineStep(w, line, fd) == Some(w))
  {
    hide CheckLine, Words, Trim, ByName, ByFd, ApplyMode, LineStep;
    RunMode(w, line, fd);
    WordsHaveSpace(line);
  }

  lemma WordsHaveSpace(line: string)
    ensures |Words(line)| >= 2 ==> ' ' in line
  {
    hide SplitAll;
    ContainsChar(line, ' ');
    SplitWhole(line, " ");
  }

  // ---------------------------------------------------------------- leaving the server

  /** The channel without the first entry of the client, if there is one, and without its rank. */
  function Without<Id(==)>(ch: Chan<Id>, x: Option<Id>): Chan<Id> {
    match x
    case None => ch
    case Some(c) =>
      if c !in ch.clients then ch
      else ch.(clients := RemoveFirst(ch.clients, c), operators := RemoveFirst(ch.operators, c))
  }

  lemma WithoutIs<Id>(info: map<Id, ClientInfo>, ch: Chan<Id>, x: Option<Id>)
    ensures DropOption(info, ch, x) == Without(ch, x)
  {
    hide Drop;
    if x.Some? {
      DropIs(info, ch, x.value);
    }
  }

  lemma LeaveIs<Id>(info: map<Id, ClientInfo>, ch: Chan<Id>, fd: int)
    ensures Leave(info, ch, fd) == Without(ch, ByFd(info, ch.clients, fd))
  {
    hide ByFd, DropOption, Without;
    WithoutIs(info, ch, ByFd(info, ch.clients, fd));
  }

  /** The list of live clients without the one with the descriptor. */
  lemma DropFdTwice<Id>(info: map<Id, ClientInfo>, live: seq<Id>, fd: int)
    requires LiveOk(info, live)
    ensures DropFd(info, DropFd(info, live, fd), fd)
         == match ByFd(info, live, fd) case None => live case Some(c) => RemoveFirst(live, c)
  {
    hide RemoveFirst;
    match ByFd(info, live, fd)
    case None =>
    case Some(c) =>
      RemoveFirstDistinct(live, c);
      NoFdLeft(info, RemoveFirst(live, c), fd);
  }

  lemma NoFdLeft<Id>(info: map<Id, ClientInfo>, s: seq<Id>, fd: int)
    requires forall c <- s :: Of(info, c).fd != fd
    ensures ByFd(info, s, fd).None?
  {
  }

  /** A connection that ends takes its client off the list, and the first entry with the descriptor off each channel. */
  lemma HangupLeaves<Id>(w: World<Id>, fd: int)
    requires LiveOk(w.info, w.live)
    ensures var w' := Step(w, Hangup(fd)).value;
            && Step(w, Hangup(fd)).Some? && w' == w.(live := w'.live, channels := w'.channels)
            && w'.live == (match ByFd(w.info, w.live, fd) case None => w.live case Some(c) => RemoveFirst(w.live, c))
            && |w'.channels| == |w.channels|
            && forall i :: 0 <= i < |w.channels| ==>
                 w'.channels[i] == Without(w.channels[i], ByFd(w.info, w.channels[i].clients, fd))
  {
    hide LiveOk, ByFd, DropFd, Leave, Without, RemoveFirst;
    DropFdTwice(w.info, w.live, fd);
    forall i | 0 <= i < |w.channels|
      ensures Leave(w.info, w.channels[i], fd) == Without(w.channels[i], ByFd(w.info, w.channels[i].clients, fd))
    {
      LeaveIs(w.info, w.channels[i], fd);
    }
  }

  /** The channels after the sender has left those that list its descriptor. */
  function Taken<Id(==)>(w: World<Id>, fd: int): (r: seq<Chan<Id>>)
    ensures |r| == |w.channels|
    ensures forall i :: 0 <= i < |r| ==>
              r[i] == if FdAmong(w.info, w.channels[i].clients, fd)
                      then Without(w.channels[i], ByFd(w.info, w.live, fd)) else w.channels[i]
  {
    seq(|w.channels|, i requires 0 <= i < |w.channels| =>
      if FdAmong(w.info, w.channels[i].clients, fd)
      then Without(w.channels[i], ByFd(w.info, w.live, fd)) else w.channels[i])
  }

  /** A QUIT takes the sender off every channel that lists its descriptor, and then the connection ends. */
  lemma QuitLeaves<Id>(w: World<Id>, line: string, fd: int, w': World<Id>)
    requires CheckLine(w, line, fd) == Run("QUIT") && LineStep(w, line, fd) == Some(w')
    ensures Step(w.(channels := Taken(w, fd)), Hangup(fd)) == Some(w')
  {
    hide CheckLine, ByFd, QuitChannels, ServerRemove, Without, DropOption, LineStep, Taken;
    RunQuit(w, line, fd);
    var c := ByFd(w.info, w.live, fd);
    QuitChannelsDrop(w.info, w.channels, c, fd, line);
    var left := QuitChannels(w.info, w.channels, c, fd, line).value;
    forall i | 0 <= i < |w.channels| ensures left[i] == Taken(w, fd)[i] {
      WithoutIs(w.info, w.channels[i], QuitOf(w.info, w.channels[i], c, fd));
      WithoutNone(w.channels[i]);
    }
    assert left == Taken(w, fd);
  }

  lemma WithoutNone<Id>(ch: Chan<Id>)
    ensures Without(ch, None) == ch
  {
  }

  // ---------------------------------------------------------------- lines that change nothing

  /** A line that does not run changes nothing, and is not survived where it follows a sender that is not there. */
  lemma NotRun<Id>(w: World<Id>, line: string, fd: int)
    ensures CheckLine(w, line, fd).Ignored? ==> LineStep(w, line, fd) == Some(w)
    ensures CheckLine(w, line, fd).Crash? ==> LineStep(w, line, fd) == None
  {
    hide CheckLine, Handle;
  }

  /** A WHO changes nothing, but one on a channel that the sender is not on is not survived. */
  lemma WhoKeeps<Id>(w: World<Id>, line: string, fd: int)
    requires CheckLine(w, line, fd) == Run("WHO")
    ensures LineStep(w, line, fd) ==
            match ByName(w.channels, Arg(line))
            case None => Some(w)
            case Some(i) => if FdAmong(w.info, w.channels[i].clients, fd) then Some(w) else None
  {
    hide CheckLine, CommandOf, ByFd, ByName, ParsedInfo, Arg, Rest, LineStep;
    RunWho(w, line, fd);
    ReadsArgs(line);
  }

  lemma SenderThere<Id>(w: World<Id>, line: string, fd: int)
    requires CheckLine(w, line, fd).Run? && CheckLine(w, line, fd).command !in {"QUIT", "USER", "NICK", "PASS"}
    ensures ByFd(w.info, w.live, fd).Some?
  {
    hide CommandOf, Trim, FormatOf, Accepts;
  }

  /** PRIVMSG and NOTICE change nothing, and neither does a WHOIS; without a third word they are not survived. */
  lemma TalkChangesNothing<Id>(w: World<Id>, line: string, fd: int)
    requires CheckLine(w, line, fd) in {Run("PRIVMSG"), Run("NOTICE"), Run("WHOIS")}
    ensures LineStep(w, line, fd) ==
            if |Words(line)| >= 3 || CheckLine(w, line, fd) == Run("WHOIS") then Some(w) else None
  {
    hide CheckLine, LineStep, ByFd, Words;
    hide QuitStep, UserStep, NickStep, PassStep, JoinStep, PartStep, WhoOk, ModeStep, KickStep, InviteStep, TopicStep;
    RunHandles(w, line, fd);
    SenderThere(w, line, fd);
  }

  // ---------------------------------------------------------------- whoever may cause an edit causes it

  /** The channel after an edit. */
  function Outcome<Id(==)>(ch: Chan<Id>, e: Edit<Id>): Chan<Id> {
    match e
    case Enter(c) =>
      ch.(clients := ch.clients + [c], operators := if ch.clients == [] then ch.operators + [c] else ch.operators)
    case Exit(c) => ch.(clients := RemoveFirst(ch.clients, c), operators := RemoveFirst(ch.operators, c))
    case Grant(c) => ch.(operators := ch.operators + [c])
    case Revoke(c) => ch.(operators := RemoveFirst(ch.operators, c))
    case BanHost(c) =>
      ch.(bans := ch.bans + [c], clients := RemoveFirst(ch.clients, c), operators := RemoveFirst(ch.operators, c))
    case UnbanHost(c) => ch.(bans := RemoveFirst(ch.bans, c))
    case Invited(c) => ch.(invites := ch.invites + [c])
    case Limit(n) => ch.(limit := n)
    case InviteFlag(on) => ch.(inviteOnly := on)
    case Key(key) => ch.(password := key)
    case Topic(text) => ch.(topic := text)
  }

  /**
   * A line that runs and that may cause an edit of the channel it names does cause it. Bans, which go on to a WHO for
   * every member, have lemmas of their own.
   */
  lemma AllowedHappens<Id>(w: World<Id>, line: string, fd: int, i: nat, e: Edit<Id>)
    requires CheckLine(w, line, fd).Run? && i < |w.channels| && ByName(w.channels, w.channels[i].name) == Some(i)
    requires Allowed(w, w.channels[i], fd, line, e) && !e.BanHost? && !e.UnbanHost?
    requires e.Topic? && CommandOf(line) == "TOPIC" ==> Rest(line) != ""
    requires e.Limit? ==> w.channels[i].clients != []
    ensures LineStep(w, line, fd) == Some(w.(channels := w.channels[i := Outcome(w.channels[i], e)]))
  {
    hide *;
    RunIsCommand(w, line, fd);
    match e
    case Enter(c) => EnterHappens(w, line, fd, i, c);
    case Exit(c) => ExitHappens(w, line, fd, i, c);
    case Invited(c) => InvitedHappens(w, line, fd, i, c);
    case Topic(text) => TopicHappens(w, line, fd, i, text);
    case _ => ModeHappens(w, line, fd, i, e);
  }

  lemma EnterHappens<Id>(w: World<Id>, line: string, fd: int, i: nat, c: Id)
    requires CheckLine(w, line, fd).Run? && i < |w.channels| && ByName(w.channels, w.channels[i].name) == Some(i)
    requires Allowed(w, w.channels[i], fd, line, Enter(c))
    ensures LineStep(w, line, fd) == Some(w.(channels := w.channels[i := Outcome(w.channels[i], Enter(c))]))
  {
    hide CheckLine, CommandOf, LineStep, ByFd, ByName, ByNick, ByHost, ParsedInfo, Arg, Rest;
    RunIsCommand(w, line, fd);
    ReadsArgs(line);
    JoinEnters(w, line, fd, c, i);
  }

  lemma ExitHappens<Id>(w: World<Id>, line: string, fd: int, i: nat, c: Id)
    requires CheckLine(w, line, fd).Run? && i < |w.channels| && ByName(w.channels, w.channels[i].name) == Some(i)
    requires Allowed(w, w.channels[i], fd, line, Exit(c))
    ensures LineStep(w, line, fd) == Some(w.(channels := w.channels[i := Outcome(w.channels[i], Exit(c))]))
  {
    hide CheckLine, CommandOf, LineStep, ByFd, ByName, ByNick, ParsedInfo, Arg, Rest, KickHead, RemoveFirst, Drop;
    RunIsCommand(w, line, fd);
    ReadsArgs(line);
    if CommandOf(line) == "PART" {
      PartLeaves(w, line, fd, c);
    } else {
      RunKick(w, line, fd);
      DropIs(w.info, w.channels[i], c);
    }
  }

  lemma InvitedHappens<Id>(w: World<Id>, line: string, fd: int, i: nat, c: Id)
    requires CheckLine(w, line, fd).Run? && i < |w.channels| && ByName(w.channels, w.channels[i].name) == Some(i)
    requires Allowed(w, w.channels[i], fd, line, Invited(c))
    ensures LineStep(w, line, fd) == Some(w.(channels := w.channels[i := Outcome(w.channels[i], Invited(c))]))
  {
    hide CheckLine, CommandOf, LineStep, ByFd, ByName, ByNick, ParsedInfo, Arg, Rest;
    RunIsCommand(w, line, fd);
    ReadsArgs(line);
    InviteLists(w, line, fd);
  }

  lemma TopicHappens<Id>(w: World<Id>, line: string, fd: int, i: nat, text: string)
    requires CheckLine(w, line, fd).Run? && i < |w.channels| && ByName(w.channels, w.channels[i].name) == Some(i)
    requires Allowed(w, w.channels[i], fd, line, Topic(text))
    requires CommandOf(line) == "TOPIC" ==> Rest(line) != ""
    ensures LineStep(w, line, fd) == Some(w.(channels := w.channels[i := Outcome(w.channels[i], Topic(text))]))
  {
    hide *;
    TopicWays(w, line, fd, w.channels[i], text);
    RunIsCommand(w, line, fd);
    if CommandOf(line) == "TOPIC" {
      TopicLineHappens(w, line, fd, i, text);
    } else {
      ModeIsOrdered(w, line, fd, i, 't');
      SettingTaken(w, line, fd, i, Words(line)[2][0] == '+', 't', NamedBy(line));
      OutcomeTopic(w.channels[i], text);
    }
  }

  /** A topic is set by a TOPIC line or by a t mode. */
  lemma TopicWays<Id>(w: World<Id>, line: string, fd: int, ch: Chan<Id>, text: string)
    requires Allowed(w, ch, fd, line, Topic(text))
    ensures Rules(w.info, ch, fd)
    ensures if CommandOf(line) == "TOPIC" then Titles(line, ch.name, text)
            else IsEither(line, ch.name, 't') && text == NamedBy(line)
  {
    hide CommandOf, ParsedMode, ByFd, Split, ParsedInfo, NamedBy;
  }

  lemma OutcomeTopic<Id>(ch: Chan<Id>, text: string)
    ensures Outcome(ch, Topic(text)) == ch.(topic := text)
  {
  }

  lemma TopicLineHappens<Id>(w: World<Id>, line: string, fd: int, i: nat, text: string)
    requires CheckLine(w, line, fd) == Run("TOPIC") && i < |w.channels|
    requires ByName(w.channels, w.channels[i].name) == Some(i) && Rules(w.info, w.channels[i], fd)
    requires Titles(line, w.channels[i].name, text) && Rest(line) != ""
    ensures LineStep(w, line, fd) == Some(w.(channels := w.channels[i := Outcome(w.channels[i], Topic(text))]))
  {
    hide CheckLine, CommandOf, LineStep, ByFd, ByName, ParsedInfo, Rest, Split;
    RunTopic(w, line, fd);
    ReadsArgs(line);
  }

  /** A MODE line from an operator's descriptor, as its words order it. */
  lemma ModeIsOrdered<Id>(w: World<Id>, line: string, fd: int, i: nat, letter: char)
    requires CheckLine(w, line, fd).Run? && i < |w.channels| && ByName(w.channels, w.channels[i].name) == Some(i)
    requires IsEither(line, w.channels[i].name, letter) && Rules(w.info, w.channels[i], fd) && 'a' <= letter <= 'z'
    ensures |Words(line)| >= 3 && |Words(line)[2]| >= 2 && NamedBy(line) == Operand(Words(line))
    ensures Ordered(w, line, fd, i, Words(line)[2][0] == '+', letter, NamedBy(line))
    ensures IsMode(line, w.channels[i].name, letter, Words(line)[2][0] == '+')
    ensures ParsedMode(line).value.status == (Words(line)[2][0] == '+')
  {
    hide CheckLine, CommandOf, ByFd, ByName, Words, Trim;
    RunIsCommand(w, line, fd);
  }

  lemma ModeHappens<Id>(w: World<Id>, line: string, fd: int, i: nat, e: Edit<Id>)
    requires CheckLine(w, line, fd).Run? && i < |w.channels| && ByName(w.channels, w.channels[i].name) == Some(i)
    requires Allowed(w, w.channels[i], fd, line, e)
    requires e.Grant? || e.Revoke? || e.Limit? || e.InviteFlag? || e.Key?
    requires e.Limit? ==> w.channels[i].clients != []
    ensures LineStep(w, line, fd) == Some(w.(channels := w.channels[i := Outcome(w.channels[i], e)]))
  {
    hide CheckLine, CommandOf, LineStep, ByFd, ByNick, ByName, Words, Ordered, Operand, RemoveFirst, ToInt, LimitOf;
    var letter := if e.Grant? || e.Revoke? then 'o' else if e.Limit? then 'l' else if e.Key? then 'k' else 'i';
    ModeIsOrdered(w, line, fd, i, letter);
    hide ParsedMode;
    var on, p := Words(line)[2][0] == '+', NamedBy(line);
    if letter == 'o' {
      OperatorGranted(w, line, fd, i, on, p);
    } else if letter == 'l' {
      LimitSet(w, line, fd, i, on, p);
    } else {
      SettingTaken(w, line, fd, i, on, letter, p);
    }
  }
}
